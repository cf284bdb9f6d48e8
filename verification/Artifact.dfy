/**
 * The byte stream that is hashed for a skill artifact: the files in order of their names, each as a 4-byte length, the
 * name, an 8-byte length and the content. Names are their UTF-8 bytes, whose order is that of the strings.
 */
module Artifact {
  import opened Common

  type Byte = b: int | 0 <= b < 256
  type Bytes = seq<Byte>
  type Files = map<Bytes, Bytes>

  datatype File = File(path: Bytes, content: Bytes)

  /** `_artifact_mapping`: a later file with the same path replaces an earlier one. */
  function Mapping(artifact: seq<File>): Files {
    if artifact == [] then map[]
    else Mapping(artifact[..|artifact| - 1])[artifact[|artifact| - 1].path := artifact[|artifact| - 1].content]
  }

  function Power(k: nat): nat { if k == 0 then 1 else 256 * Power(k - 1) }

  /** `to_bytes(width, "big")`, for a number that fits. */
  function BigEndian(n: nat, width: nat): (b: Bytes)
    ensures |b| == width
  {
    if width == 0 then [] else BigEndian(n / 256, width - 1) + [n % 256]
  }

  function Number(b: Bytes): nat {
    if b == [] then 0 else 256 * Number(b[..|b| - 1]) + b[|b| - 1]
  }

  function Entry(name: Bytes, content: Bytes): Bytes {
    BigEndian(|name|, 4) + name + BigEndian(|content|, 8) + content
  }

  function Stream(names: seq<Bytes>, files: Files): Bytes
    requires forall name :: name in names ==> name in files
  {
    if names == [] then []
    else Stream(names[..|names| - 1], files) + Entry(names[|names| - 1], files[names[|names| - 1]])
  }

  predicate Fits(name: Bytes, content: Bytes) { |name| < Power(4) && |content| < Power(8) }

  // -- Order ---------------------------------------------------------------------------------------------------

  predicate Less(a: Bytes, b: Bytes) {
    b != [] && (a == [] || a[0] < b[0] || (a[0] == b[0] && Less(a[1..], b[1..])))
  }

  lemma {:induction false} LessIsTotal(a: Bytes, b: Bytes)
    ensures a == b || Less(a, b) || Less(b, a)
    decreases |a|
  {
    if a != [] && b != [] && a[0] == b[0] {
      LessIsTotal(a[1..], b[1..]);
      if a[1..] == b[1..] { assert a == [a[0]] + a[1..] && b == [b[0]] + b[1..]; }
    }
  }

  lemma {:induction false} LessIsTransitive(a: Bytes, b: Bytes, c: Bytes)
    requires Less(a, b) && Less(b, c)
    ensures Less(a, c)
    decreases |a|
  {
    if a != [] && a[0] == b[0] && b[0] == c[0] { LessIsTransitive(a[1..], b[1..], c[1..]); }
  }

  lemma {:induction false} LessIsStrict(a: Bytes, b: Bytes)
    requires Less(a, b)
    ensures !Less(b, a) && a != b
    decreases |a|
  {
    if a != [] && a[0] == b[0] { LessIsStrict(a[1..], b[1..]); }
  }

  /** At `i` the two first differ, and there `a` ends or has the smaller byte. */
  predicate SmallerAt(a: Bytes, b: Bytes, i: nat) {
    i <= |a| && i < |b| && a[..i] == b[..i] && (i == |a| || a[i] < b[i])
  }

  /** The order is the lexicographic one. */
  lemma {:induction false} LessIsLexicographic(a: Bytes, b: Bytes)
    ensures Less(a, b) <==> exists i: nat :: SmallerAt(a, b, i)
    decreases |a|
  {
    if b != [] && a != [] && a[0] == b[0] {
      LessIsLexicographic(a[1..], b[1..]);
      if i: nat :| SmallerAt(a[1..], b[1..], i) {
        assert a[..i + 1] == [a[0]] + a[1..][..i] && b[..i + 1] == [b[0]] + b[1..][..i];
        assert SmallerAt(a, b, i + 1);
      }
      if j: nat :| SmallerAt(a, b, j) {
        assert j > 0;
        assert a[1..][..j - 1] == a[..j][1..] && b[1..][..j - 1] == b[..j][1..];
        assert SmallerAt(a[1..], b[1..], j - 1);
      }
    } else if b != [] && (a == [] || a[0] < b[0]) {
      assert SmallerAt(a, b, 0);
    } else {
      forall j: nat ensures !SmallerAt(a, b, j) { NotSmallerAt(a, b, j); }
    }
  }

  lemma NotSmallerAt(a: Bytes, b: Bytes, j: nat)
    requires b == [] || (a != [] && a[0] > b[0])
    ensures !SmallerAt(a, b, j)
  {
    if 0 < j <= |a| && j < |b| { assert a[..j][0] == a[0] && b[..j][0] == b[0]; }
  }

  predicate Sorted(names: seq<Bytes>) { forall i, j :: 0 <= i < j < |names| ==> Less(names[i], names[j]) }

  /** `names` lists the files in order, each once. */
  ghost predicate Lists(names: seq<Bytes>, files: Files) {
    Sorted(names) && forall name :: name in names <==> name in files
  }

  lemma {:induction false} SortedIsUnique(a: seq<Bytes>, b: seq<Bytes>)
    requires Sorted(a) && Sorted(b) && forall name :: name in a <==> name in b
    ensures a == b
    decreases |a|
  {
    EmptyTogether(a, b);
    if a != [] {
      var i, j := |a| - 1, |b| - 1;
      SameLast(a, b);
      forall name ensures name in a[..i] <==> name in b[..j] {
        BeforeLast(a, name);
        BeforeLast(b, name);
      }
      SortedIsUnique(a[..i], b[..j]);
      assert a == a[..i] + [a[i]] && b == b[..j] + [b[j]];
    }
  }

  lemma EmptyTogether(a: seq<Bytes>, b: seq<Bytes>)
    requires forall name :: name in a <==> name in b
    ensures a == [] <==> b == []
  {
    if a != [] { assert a[0] in b; }
    if b != [] { assert b[0] in a; }
  }

  lemma BeforeLast(a: seq<Bytes>, name: Bytes)
    requires a != [] && Sorted(a)
    ensures name in a[..|a| - 1] <==> name in a && name != a[|a| - 1]
  {
    var i := |a| - 1;
    assert a == a[..i] + [a[i]];
    if name in a[..i] {
      var k :| 0 <= k < i && a[k] == name;
      LessIsStrict(a[k], a[i]);
    }
  }

  lemma SameLast(a: seq<Bytes>, b: seq<Bytes>)
    requires a != [] && b != [] && Sorted(a) && Sorted(b) && forall name :: name in a <==> name in b
    ensures a[|a| - 1] == b[|b| - 1]
  {
    var x, y := a[|a| - 1], b[|b| - 1];
    assert x in b && y in a;
    var i :| 0 <= i < |b| && b[i] == x;
    var j :| 0 <= j < |a| && a[j] == y;
    if x != y { LessIsStrict(x, y); }
  }

  // -- Decoding ------------------------------------------------------------------------------------------------

  /** Reads the stream back; `None` if it is cut short. */
  function Decode(s: Bytes): Option<Files> {
    if s == [] then Some(map[])
    else if |s| < 4 then None
    else
      var n := Number(s[..4]);
      if |s| < n + 12 then None
      else
        var m := Number(s[n + 4..n + 12]);
        if |s| < n + 12 + m then None
        else
          var rest := Decode(s[n + 12 + m..]);
          if rest.None? then None else Some(rest.value[s[4..n + 4] := s[n + 12..n + 12 + m]])
  }

  lemma {:induction false} NumberOfBigEndian(n: nat, width: nat)
    requires n < Power(width)
    ensures Number(BigEndian(n, width)) == n
    decreases width
  {
    if width > 0 {
      NumberOfBigEndian(n / 256, width - 1);
      var b := BigEndian(n, width);
      assert b[..|b| - 1] == BigEndian(n / 256, width - 1);
    }
  }

  lemma DecodeEntry(name: Bytes, content: Bytes, rest: Bytes)
    requires Fits(name, content)
    ensures var d := Decode(rest);
            Decode(Entry(name, content) + rest) == if d.None? then None else Some(d.value[name := content])
  {
    hide Power; hide BigEndian; hide Number;
    var a, b := BigEndian(|name|, 4), BigEndian(|content|, 8);
    var s := Entry(name, content) + rest;
    NumberOfBigEndian(|name|, 4);
    NumberOfBigEndian(|content|, 8);
    var n, m := |name|, |content|;
    assert s == a + name + b + content + rest;
    assert s[..4] == a;
    assert s[4..n + 4] == name;
    assert s[n + 4..n + 12] == b;
    assert s[n + 12..n + 12 + m] == content;
    assert s[n + 12 + m..] == rest;
  }

  function Restrict(files: Files, names: seq<Bytes>): Files { map name | name in names && name in files :: files[name] }

  lemma {:induction false} DecodeStream(names: seq<Bytes>, files: Files, rest: Bytes)
    requires forall name :: name in names ==> name in files && Fits(name, files[name])
    requires Decode(rest).Some?
    ensures Decode(Stream(names, files) + rest) == Some(Overlay(names, files, Decode(rest).value))
    decreases |names|
  {
    hide Power; hide Decode; hide Entry;
    if names == [] {
      assert Stream(names, files) + rest == rest;
    } else {
      var i := |names| - 1;
      var entry := Entry(names[i], files[names[i]]);
      DecodeEntry(names[i], files[names[i]], rest);
      DecodeStream(names[..i], files, entry + rest);
      assert Stream(names, files) + rest == Stream(names[..i], files) + (entry + rest);
    }
  }

  /** `files` laid over `base`, for the given names, last name first. */
  function Overlay(names: seq<Bytes>, files: Files, base: Files): Files
    requires forall name :: name in names ==> name in files
  {
    if names == [] then base
    else Overlay(names[..|names| - 1], files, base[names[|names| - 1] := files[names[|names| - 1]]])
  }

  /** Each name of the list holds its own content, so the order of laying over does not matter. */
  lemma {:induction false} OverlayIs(names: seq<Bytes>, files: Files, base: Files)
    requires forall name :: name in names ==> name in files
    ensures Overlay(names, files, base) == base + Restrict(files, names)
    decreases |names|
  {
    if names != [] {
      var i := |names| - 1;
      assert names == names[..i] + [names[i]];
      OverlayIs(names[..i], files, base[names[i] := files[names[i]]]);
      assert base[names[i] := files[names[i]]] + Restrict(files, names[..i]) == base + Restrict(files, names);
    }
  }

  ghost predicate AllFit(files: Files) { forall name :: name in files ==> Fits(name, files[name]) }

  /** Round trip: the hashed stream decodes to the file map. */
  lemma StreamRoundTrip(names: seq<Bytes>, files: Files)
    requires Lists(names, files) && AllFit(files)
    ensures Decode(Stream(names, files)) == Some(files)
  {
    hide Decode; hide Stream; hide Less;
    assert Decode([]) == Some(map[]) by { DecodeNothing(); }
    DecodeStream(names, files, []);
    OverlayIs(names, files, map[]);
    assert Stream(names, files) + [] == Stream(names, files);
    assert map[] + Restrict(files, names) == files;
  }

  lemma DecodeNothing()
    ensures Decode([]) == Some(map[])
  {
  }

  /** Equal streams mean equal artifacts, and equal artifacts equal streams. */
  lemma StreamsAgreeIffFilesAgree(a: seq<Bytes>, f: Files, b: seq<Bytes>, g: Files)
    requires Lists(a, f) && Lists(b, g) && AllFit(f) && AllFit(g)
    ensures Stream(a, f) == Stream(b, g) <==> f == g
  {
    hide Decode; hide Stream; hide Less;
    StreamRoundTrip(a, f);
    StreamRoundTrip(b, g);
    if f == g { SortedIsUnique(a, b); }
  }

  // -- Sorting -------------------------------------------------------------------------------------------------

  /** Puts a new name in its place. */
  function Insert(names: seq<Bytes>, name: Bytes): seq<Bytes> {
    if names == [] || Less(names[|names| - 1], name) then names + [name]
    else Insert(names[..|names| - 1], name) + [names[|names| - 1]]
  }

  lemma {:induction false} InsertSorts(names: seq<Bytes>, name: Bytes)
    requires Sorted(names) && name !in names
    ensures Sorted(Insert(names, name))
    ensures forall x :: x in Insert(names, name) <==> x in names || x == name
    decreases |names|
  {
    hide Less;
    if names == [] {
    } else {
      var i := |names| - 1;
      var last := names[i];
      assert names == names[..i] + [last];
      if Less(last, name) {
        forall k | 0 <= k < |names| ensures Less(names[k], name) {
          if k < i { LessIsTransitive(names[k], last, name); }
        }
      } else {
        LessIsTotal(last, name);
        InsertSorts(names[..i], name);
        var front := Insert(names[..i], name);
        forall k | 0 <= k < |front| ensures Less(front[k], last) {
          assert front[k] in front;
          if front[k] != name {
            var m :| 0 <= m < i && names[m] == front[k];
          }
        }
      }
    }
  }

  method SortNames(files: Files) returns (names: seq<Bytes>)
    ensures Lists(names, files)
  {
    names := [];
    var left := files.Keys;
    while left != {}
      invariant left <= files.Keys && Sorted(names)
      invariant forall name :: name in names <==> name in files.Keys - left
      decreases |left|
    {
      var name :| name in left;
      InsertSorts(names, name);
      names := Insert(names, name);
      left := left - {name};
    }
  }

  lemma {:induction false} ListOf(keys: set<Bytes>) returns (names: seq<Bytes>)
    ensures Sorted(names) && forall name :: name in names <==> name in keys
    decreases |keys|
  {
    names := [];
    if name :| name in keys {
      var rest := ListOf(keys - {name});
      InsertSorts(rest, name);
      names := Insert(rest, name);
    }
  }

  lemma ListExists(files: Files)
    ensures exists names :: Lists(names, files)
  {
    var names := ListOf(files.Keys);
    assert Lists(names, files);
  }

  /** The names of the files, in order. */
  ghost function NamesOf(files: Files): (names: seq<Bytes>)
    ensures Lists(names, files)
  {
    ListExists(files);
    var names :| Lists(names, files);
    names
  }

  // -- The hash input of a file map ----------------------------------------------------------------------------

  /** A 4-byte field holds lengths below 2^32 and an 8-byte field lengths below 2^64. */
  lemma FieldsAre(files: Files)
    ensures AllFit(files) <==>
              forall name :: name in files ==> |name| < 0x1_0000_0000 && |files[name]| < 0x1_0000_0000_0000_0000
  {
    assert Power(4) == 256 * (256 * (256 * (256 * Power(0))));
    assert Power(8) == 256 * (256 * (256 * (256 * Power(4))));
  }

  lemma AllNamesFit(names: seq<Bytes>, files: Files)
    requires Lists(names, files) && forall k :: 0 <= k < |names| ==> Fits(names[k], files[names[k]])
    ensures AllFit(files)
  {
    hide Power; hide Less;
    forall name | name in files ensures Fits(name, files[name]) {
      var k :| 0 <= k < |names| && names[k] == name;
    }
  }

  lemma OneDoesNotFit(files: Files, name: Bytes)
    requires name in files && !Fits(name, files[name])
    ensures !AllFit(files)
  {
  }

  /** What `_artifact_content_hash` feeds to the digest; `None` if a length does not fit its field. */
  method HashedStream(files: Files) returns (stream: Option<Bytes>)
    ensures stream.Some? <==> AllFit(files)
    ensures stream.Some? <==>
              forall name :: name in files ==> |name| < 0x1_0000_0000 && |files[name]| < 0x1_0000_0000_0000_0000
    ensures stream.Some? ==> Decode(stream.value) == Some(files)
    ensures stream.Some? ==> forall names :: Lists(names, files) ==> stream.value == Stream(names, files)
  {
    FieldsAre(files);
    hide Power; hide Decode; hide Less; hide Entry; hide AllFit;
    var names := SortNames(files);
    var digest: Bytes := [];
    var i := 0;
    while i < |names|
      invariant 0 <= i <= |names|
      invariant digest == Stream(names[..i], files)
      invariant forall k :: 0 <= k < i ==> Fits(names[k], files[names[k]])
    {
      var name := names[i];
      assert name in files;
      var content := files[name];
      if !Fits(name, content) {
        assert !AllFit(files) by { OneDoesNotFit(files, name); }
        return None;
      }
      digest := digest + Entry(name, content);
      assert names[..i + 1][..i] == names[..i];
      i := i + 1;
    }
    assert names[..i] == names;
    assert AllFit(files) by { AllNamesFit(names, files); }
    StreamRoundTrip(names, files);
    forall other | Lists(other, files) ensures other == names { SortedIsUnique(other, names); }
    return Some(digest);
  }

  // -- The artifact list ---------------------------------------------------------------------------------------

  /** `validate_artifact_paths`: no two files of one path. */
  predicate Distinct(artifact: seq<File>) {
    forall i, j :: 0 <= i < j < |artifact| ==> artifact[i].path != artifact[j].path
  }

  /** What the content hash of an artifact is computed from; `None` if the artifact is refused. */
  ghost function HashInput(artifact: seq<File>): Option<Bytes> {
    var files := Mapping(artifact);
    if Distinct(artifact) && AllFit(files) then Some(Stream(NamesOf(files), files)) else None
  }

  /** `inspect_artifact`, as far as the hash goes: map the list, hash the map, and have the spec check the paths. */
  method InspectArtifact(artifact: seq<File>) returns (stream: Option<Bytes>)
    ensures stream == HashInput(artifact)
    ensures stream.Some? ==> Decode(stream.value) == Some(Mapping(artifact))
  {
    hide Decode; hide AllFit; hide Lists; hide Stream;
    var files: Files, paths: set<Bytes>, i := map[], {}, 0;
    while i < |artifact|
      invariant 0 <= i <= |artifact|
      invariant files == Mapping(artifact[..i])
      invariant paths == Paths(artifact[..i])
    {
      assert artifact[..i + 1][..i] == artifact[..i];
      PathsOneMore(artifact, i);
      files := files[artifact[i].path := artifact[i].content];
      paths := paths + {artifact[i].path};
      i := i + 1;
    }
    assert artifact[..i] == artifact;
    DistinctIffCount(artifact);
    stream := HashedStream(files);
    if |artifact| != |paths| { stream := None; }
  }

  function Paths(artifact: seq<File>): set<Bytes> { set f | f in artifact :: f.path }

  lemma PathsOneMore(artifact: seq<File>, i: nat)
    requires i < |artifact|
    ensures Paths(artifact[..i + 1]) == Paths(artifact[..i]) + {artifact[i].path}
  {
    assert artifact[..i + 1] == artifact[..i] + [artifact[i]];
  }

  /** As many paths as files means that no path occurs twice. */
  lemma {:induction false} DistinctIffCount(artifact: seq<File>)
    ensures |Paths(artifact)| <= |artifact|
    ensures |artifact| == |Paths(artifact)| <==> Distinct(artifact)
    decreases |artifact|
  {
    hide Distinct; hide Paths;
    if artifact == [] {
      NoPaths();
    } else {
      var n := |artifact| - 1;
      DistinctIffCount(artifact[..n]);
      PathsOneMore(artifact, n);
      DistinctOneMore(artifact, n);
      assert artifact[..n + 1] == artifact;
    }
  }

  lemma NoPaths()
    ensures Paths([]) == {} && Distinct([])
  {
  }

  lemma DistinctOneMore(artifact: seq<File>, i: nat)
    requires i < |artifact|
    ensures Distinct(artifact[..i + 1]) <==> Distinct(artifact[..i]) && artifact[i].path !in Paths(artifact[..i])
  {
    var front, whole := artifact[..i], artifact[..i + 1];
    assert forall k :: 0 <= k < i ==> front[k] == whole[k];
    assert forall k :: 0 <= k < i ==> front[k] in front;
    if artifact[i].path in Paths(front) {
      var f :| f in front && f.path == artifact[i].path;
      var k :| 0 <= k < i && front[k] == f;
      assert whole[k].path == whole[i].path;
    }
    if Distinct(whole) {
      assert forall k, l :: 0 <= k < l < i ==> front[k].path == whole[k].path && front[l].path == whole[l].path;
    }
  }

  lemma {:induction false} MappingIsOfArtifact(artifact: seq<File>, path: Bytes)
    ensures path in Mapping(artifact) ==> File(path, Mapping(artifact)[path]) in artifact
    ensures forall f :: f in artifact ==> f.path in Mapping(artifact)
    decreases |artifact|
  {
    if artifact != [] {
      var i := |artifact| - 1;
      assert artifact == artifact[..i] + [artifact[i]];
      MappingIsOfArtifact(artifact[..i], path);
    }
  }

  /** The files of an accepted artifact are exactly the entries of its map. */
  lemma FilesAreEntries(artifact: seq<File>, f: File)
    requires Distinct(artifact)
    ensures f in artifact <==> f.path in Mapping(artifact) && Mapping(artifact)[f.path] == f.content
  {
    MappingIsOfArtifact(artifact, f.path);
    if f in artifact {
      var g := File(f.path, Mapping(artifact)[f.path]);
      var i :| 0 <= i < |artifact| && artifact[i] == f;
      var j :| 0 <= j < |artifact| && artifact[j] == g;
    }
  }

  lemma {:induction false} DistinctCountsOnce(artifact: seq<File>, f: File)
    requires Distinct(artifact)
    ensures multiset(artifact)[f] == if f in artifact then 1 else 0
    decreases |artifact|
  {
    if artifact != [] {
      var n := |artifact| - 1;
      var front := artifact[..n];
      assert artifact == front + [artifact[n]];
      DistinctCountsOnce(front, f);
      if f in front {
        var i :| 0 <= i < n && front[i] == f;
        assert artifact[i].path != artifact[n].path;
      }
    }
  }

  lemma SameElements(a: seq<File>, b: seq<File>, f: File)
    requires multiset(a) == multiset(b)
    ensures f in a <==> f in b
  {
    assert f in a <==> f in multiset(a);
  }

  lemma DistinctPermutes(a: seq<File>, b: seq<File>)
    requires Distinct(a) && multiset(a) == multiset(b)
    ensures Distinct(b)
  {
    assert |a| == |multiset(a)| && |b| == |multiset(b)|;
    DistinctIffCount(a);
    DistinctIffCount(b);
    forall f ensures f in a <==> f in b { SameElements(a, b, f); }
    assert Paths(a) == Paths(b);
  }

  lemma SameMapping(a: seq<File>, b: seq<File>)
    requires Distinct(a) && Distinct(b)
    ensures Mapping(a) == Mapping(b) <==> multiset(a) == multiset(b)
  {
    hide Mapping; hide Distinct;
    if multiset(a) == multiset(b) {
      forall path ensures path in Mapping(a) <==> path in Mapping(b) {
        if path in Mapping(a) { EntryCarriesOver(a, b, path); }
        if path in Mapping(b) { EntryCarriesOver(b, a, path); }
      }
      forall path | path in Mapping(a) ensures Mapping(a)[path] == Mapping(b)[path] { EntryCarriesOver(a, b, path); }
    }
    if Mapping(a) == Mapping(b) {
      forall f ensures multiset(a)[f] == multiset(b)[f] {
        FilesAreEntries(a, f);
        FilesAreEntries(b, f);
        DistinctCountsOnce(a, f);
        DistinctCountsOnce(b, f);
      }
    }
  }

  lemma EntryCarriesOver(a: seq<File>, b: seq<File>, path: Bytes)
    requires Distinct(a) && Distinct(b) && multiset(a) == multiset(b) && path in Mapping(a)
    ensures path in Mapping(b) && Mapping(b)[path] == Mapping(a)[path]
  {
    var f := File(path, Mapping(a)[path]);
    FilesAreEntries(a, f);
    SameElements(a, b, f);
    FilesAreEntries(b, f);
  }

  /** Reordering an artifact list changes nothing: it is accepted or refused alike, and hashed from the same bytes. */
  lemma OrderIsIrrelevant(a: seq<File>, b: seq<File>)
    requires multiset(a) == multiset(b)
    ensures HashInput(a) == HashInput(b)
  {
    hide Mapping; hide AllFit; hide Stream;
    if Distinct(a) { DistinctPermutes(a, b); }
    if Distinct(b) {
      DistinctPermutes(b, a);
      SameMapping(a, b);
    }
  }

  /** End to end: two accepted artifacts are hashed from the same bytes if and only if they hold the same files. */
  lemma SameHashInputIffSameFiles(a: seq<File>, b: seq<File>)
    requires HashInput(a).Some? && HashInput(b).Some?
    ensures HashInput(a) == HashInput(b) <==> multiset(a) == multiset(b)
  {
    hide Mapping; hide Stream; hide Distinct; hide AllFit;
    StreamsAgreeIffFilesAgree(NamesOf(Mapping(a)), Mapping(a), NamesOf(Mapping(b)), Mapping(b));
    SameMapping(a, b);
  }
}

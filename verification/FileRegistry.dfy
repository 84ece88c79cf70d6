/**
 FileRegistry.scan (internal/plugins/file_registry.go): a cache of the plugin manifests in a
 directory. A file that cannot be read or parsed keeps the last manifest it had.
 */
module FileRegistry {
  import opened Wrappers
  import opened Plugins

  // No content stands for a read error.
  datatype DirEntry = DirEntry(name: string, isDir: bool, content: Option<string>)

  // What os.ReadDir returns; its names are distinct.
  type Directory = seq<DirEntry>

  ghost predicate DistinctNames(dir: Directory) {
    forall i, j :: 0 <= i < j < |dir| ==> dir[i].name != dir[j].name
  }

  // filepath.Ext of a name without slashes.
  function Ext(name: string): string {
    if name == [] then ""
    else if name[|name| - 1] == '.' then "."
    else
      var ext := Ext(name[..|name| - 1]);
      if ext == "" then "" else ext + [name[|name| - 1]]
  }

  // No other character's lower case is a letter of the two extensions.
  function ToLower(c: char): char {
    if 'A' <= c <= 'Z' then c - 'A' + 'a' else c
  }

  predicate IsYaml(ext: string) {
    var lower := seq(|ext|, i requires 0 <= i < |ext| => ToLower(ext[i]));
    lower == ".yaml" || lower == ".yml"
  }

  // file_registry.go:122-133.
  predicate Eligible(e: DirEntry) {
    !e.isDir && !("." <= e.name) && IsYaml(Ext(e.name))
  }

  // The name ends in .yaml or .yml, in letters of either case.
  predicate HasYamlEnding(name: string) {
    || (|name| >= 5 && name[|name| - 5] == '.' && name[|name| - 4] in {'y', 'Y'} && name[|name| - 3] in {'a', 'A'}
        && name[|name| - 2] in {'m', 'M'} && name[|name| - 1] in {'l', 'L'})
    || (|name| >= 4 && name[|name| - 4] == '.' && name[|name| - 3] in {'y', 'Y'}
        && name[|name| - 2] in {'m', 'M'} && name[|name| - 1] in {'l', 'L'})
  }

  lemma {:induction false} ExtIsEnding(name: string)
    ensures |Ext(name)| <= |name| && name[|name| - |Ext(name)|..] == Ext(name)
  {
    if name != "" && name[|name| - 1] != '.' {
      var front := name[..|name| - 1];
      ExtIsEnding(front);
      assert name == front + [name[|name| - 1]];
    }
  }

  lemma {:induction false} ExtAfterDot(stem: string, tail: string)
    requires '.' !in tail
    ensures Ext(stem + "." + tail) == "." + tail
    decreases |tail|
  {
    var name := stem + "." + tail;
    if tail == "" {
      assert name[|name| - 1] == '.';
    } else {
      var front := tail[..|tail| - 1];
      ExtAfterDot(stem, front);
      assert name[..|name| - 1] == stem + "." + front;
      assert "." + tail == "." + front + [tail[|tail| - 1]];
      assert name[|name| - 1] == tail[|tail| - 1] && tail[|tail| - 1] in tail;
    }
  }

  lemma YamlIff(ext: string)
    ensures IsYaml(ext) <==> HasYamlEnding(ext) && '.' !in ext[1..] && |ext| >= 4 && ext[0] == '.'
  {
    var lower := seq(|ext|, i requires 0 <= i < |ext| => ToLower(ext[i]));
    assert forall i :: 0 <= i < |ext| ==> lower[i] == ToLower(ext[i]);
    if |ext| == 5 {
      assert ext[1..] == [ext[1], ext[2], ext[3], ext[4]];
      assert lower == [lower[0], lower[1], lower[2], lower[3], lower[4]];
    } else if |ext| == 4 {
      assert ext[1..] == [ext[1], ext[2], ext[3]];
      assert lower == [lower[0], lower[1], lower[2], lower[3]];
    }
  }

  lemma EndingOfYaml(name: string)
    requires IsYaml(Ext(name))
    ensures HasYamlEnding(name)
  {
    var ext := Ext(name);
    ExtIsEnding(name);
    YamlIff(ext);
    hide Ext, IsYaml;
    var k := |name| - |ext|;
    assert forall i :: 0 <= i < |ext| ==> name[k + i] == ext[i];
  }

  lemma YamlOfEnding(name: string)
    requires HasYamlEnding(name)
    ensures IsYaml(Ext(name))
  {
    hide Ext, IsYaml;
    var n := |name|;
    if n >= 5 && name[n - 5] == '.' && name[n - 4] in {'y', 'Y'} && name[n - 3] in {'a', 'A'} {
      EndingIsExt(name, [name[n - 4], name[n - 3], name[n - 2], name[n - 1]]);
    } else {
      EndingIsExt(name, [name[n - 3], name[n - 2], name[n - 1]]);
    }
  }

  lemma EndingIsExt(name: string, tail: string)
    requires '.' !in tail && |tail| < |name| && name[|name| - |tail| - 1] == '.' && name[|name| - |tail|..] == tail
    requires HasYamlEnding("." + tail) && 3 <= |tail|
    ensures IsYaml(Ext(name))
  {
    hide Ext, IsYaml;
    ExtAfterDot(name[..|name| - |tail| - 1], tail);
    assert name == name[..|name| - |tail| - 1] + "." + tail;
    YamlIff("." + tail);
    assert ("." + tail)[1..] == tail;
  }

  // Read are the visible files whose names end in .yaml or .yml, in either case.
  lemma EligibleIff(e: DirEntry)
    ensures Eligible(e) <==> !e.isDir && !(e.name != "" && e.name[0] == '.') && HasYamlEnding(e.name)
  {
    hide Ext, IsYaml, HasYamlEnding;
    if IsYaml(Ext(e.name)) { EndingOfYaml(e.name); }
    if HasYamlEnding(e.name) { YamlOfEnding(e.name); }
    assert e.name != "" ==> ("." <= e.name <==> e.name[0] == '.');
  }

  // ----- the last good version of a file, by the directories seen -----

  datatype Sight = Absent | Broken | Good(value: Resolved)

  function SightOf(parse: Parser, e: DirEntry): Sight {
    if !Eligible(e) then Absent
    else if e.content.None? then Broken
    else match parse(e.content.value)
      case Some(m) => Good(Resolved(m, "file"))
      case None => Broken
  }

  ghost function Look(parse: Parser, dir: Directory, name: string): Sight {
    if dir == [] then Absent
    else
      var last := dir[|dir| - 1];
      if last.name == name && Eligible(last) then SightOf(parse, last)
      else Look(parse, dir[..|dir| - 1], name)
  }

  ghost function LastGood(parse: Parser, history: seq<Directory>, name: string): Option<Resolved> {
    if history == [] then None
    else match Look(parse, history[|history| - 1], name)
      case Absent => None
      case Good(r) => Some(r)
      case Broken => LastGood(parse, history[..|history| - 1], name)
  }

  ghost predicate LastGoodAt(parse: Parser, history: seq<Directory>, name: string, r: Resolved, k: nat)
    requires k < |history|
  {
    && Look(parse, history[k], name) == Good(r)
    && forall j :: k < j < |history| ==> Look(parse, history[j], name) == Broken
  }

  // A file's last good version is its most recent successful parse since it was last absent;
  // it vanishes with the file and does not come back.
  lemma LastGoodIff(parse: Parser, history: seq<Directory>, name: string, r: Resolved)
    ensures LastGood(parse, history, name) == Some(r)
      <==> exists k :: 0 <= k < |history| && LastGoodAt(parse, history, name, r, k)
  {
    if LastGood(parse, history, name) == Some(r) { var k := WhenLastGood(parse, history, name, r); }
    hide LastGoodAt, LastGood;
    forall k | 0 <= k < |history| && LastGoodAt(parse, history, name, r, k)
      ensures LastGood(parse, history, name) == Some(r)
    {
      GoodSince(parse, history, name, r, k);
    }
  }

  lemma {:induction false} WhenLastGood(parse: Parser, history: seq<Directory>, name: string, r: Resolved) returns (k: nat)
    requires LastGood(parse, history, name) == Some(r)
    ensures k < |history| && LastGoodAt(parse, history, name, r, k)
  {
    hide Look;
    k := |history| - 1;
    if Look(parse, history[k], name) == Broken {
      k := WhenLastGood(parse, history[..k], name, r);
    }
  }

  lemma {:induction false} GoodSince(parse: Parser, history: seq<Directory>, name: string, r: Resolved, k: nat)
    requires k < |history| && LastGoodAt(parse, history, name, r, k)
    ensures LastGood(parse, history, name) == Some(r)
  {
    hide Look;
    if k < |history| - 1 {
      GoodSince(parse, history[..|history| - 1], name, r, k);
    }
  }

  // The directory has the file, and it parses to that manifest.
  ghost predicate Shows(parse: Parser, dir: Directory, name: string, r: Resolved) {
    exists i :: 0 <= i < |dir| && Eligible(dir[i]) && dir[i].name == name
      && dir[i].content.Some? && parse(dir[i].content.value) == Some(r.manifest) && r.source == "file"
  }

  // It has the file, but that cannot be read or parsed.
  ghost predicate ShowsBroken(parse: Parser, dir: Directory, name: string) {
    exists i :: 0 <= i < |dir| && Eligible(dir[i]) && dir[i].name == name
      && (dir[i].content.None? || parse(dir[i].content.value).None?)
  }

  lemma LookMeans(parse: Parser, dir: Directory, name: string, r: Resolved)
    requires DistinctNames(dir)
    ensures Look(parse, dir, name) == Good(r) <==> Shows(parse, dir, name, r)
    ensures Look(parse, dir, name) == Broken <==> ShowsBroken(parse, dir, name)
  {
    LookIsAbsent(parse, dir, name);
    hide Look, Eligible, DistinctNames;
    forall i | 0 <= i < |dir| && Eligible(dir[i]) && dir[i].name == name
      ensures Look(parse, dir, name) == SightOf(parse, dir[i])
    {
      LookAt(parse, dir, i);
    }
  }

  // In terms of the directories: a file's last good version is what it parsed to in one of them,
  // with the file there but broken in all those since.
  lemma LastGoodMeans(parse: Parser, history: seq<Directory>, name: string, r: Resolved)
    requires forall k :: 0 <= k < |history| ==> DistinctNames(history[k])
    ensures LastGood(parse, history, name) == Some(r)
      <==> exists k :: 0 <= k < |history| && Shows(parse, history[k], name, r)
             && forall j :: k < j < |history| ==> ShowsBroken(parse, history[j], name)
  {
    hide LastGood, LastGoodAt, Shows, ShowsBroken, DistinctNames;
    LastGoodIff(parse, history, name, r);
    forall k | 0 <= k < |history|
      ensures LastGoodAt(parse, history, name, r, k)
        <==> Shows(parse, history[k], name, r) && forall j :: k < j < |history| ==> ShowsBroken(parse, history[j], name)
    {
      GoodAtMeans(parse, history, name, r, k);
    }
  }

  lemma GoodAtMeans(parse: Parser, history: seq<Directory>, name: string, r: Resolved, k: nat)
    requires k < |history| && forall j :: 0 <= j < |history| ==> DistinctNames(history[j])
    ensures LastGoodAt(parse, history, name, r, k)
      <==> Shows(parse, history[k], name, r) && forall j :: k < j < |history| ==> ShowsBroken(parse, history[j], name)
  {
    hide Look, Shows, ShowsBroken, DistinctNames;
    forall j | 0 <= j < |history|
      ensures Look(parse, history[j], name) == Good(r) <==> Shows(parse, history[j], name, r)
      ensures Look(parse, history[j], name) == Broken <==> ShowsBroken(parse, history[j], name)
    {
      LookMeans(parse, history[j], name, r);
    }
  }

  // The eligible entries' last good versions, filed by id; a later entry wins.
  ghost function Catalogue(parse: Parser, history: seq<Directory>, dir: Directory): map<string, Resolved> {
    if dir == [] then map[]
    else
      var last := dir[|dir| - 1];
      var before := Catalogue(parse, history, dir[..|dir| - 1]);
      if !Eligible(last) then before
      else match LastGood(parse, history, last.name)
        case Some(r) => before[r.manifest.id := r]
        case None => before
  }

  lemma {:induction false} CatalogueIsKeyed(parse: Parser, history: seq<Directory>, dir: Directory)
    ensures KeyedById(Catalogue(parse, history, dir))
  {
    hide LastGood, Eligible;
    if dir != [] { CatalogueIsKeyed(parse, history, dir[..|dir| - 1]); }
  }

  ghost predicate Offers(parse: Parser, history: seq<Directory>, e: DirEntry, id: string) {
    Eligible(e) && LastGood(parse, history, e.name).Some?
    && LastGood(parse, history, e.name).value.manifest.id == id
  }

  lemma {:induction false} CatalogueAt(parse: Parser, history: seq<Directory>, dir: Directory, id: string, r: Resolved)
    ensures (id in Catalogue(parse, history, dir) && Catalogue(parse, history, dir)[id] == r)
      <==> exists i :: 0 <= i < |dir| && Offers(parse, history, dir[i], id)
             && LastGood(parse, history, dir[i].name) == Some(r)
             && forall j :: i < j < |dir| ==> !Offers(parse, history, dir[j], id)
  {
    hide LastGood, Eligible;
    if dir != [] {
      var front, n := dir[..|dir| - 1], |dir| - 1;
      CatalogueAt(parse, history, front, id, r);
      assert forall k :: 0 <= k < n ==> front[k] == dir[k];
      if Offers(parse, history, dir[n], id) {
        assert Catalogue(parse, history, dir)[id] == LastGood(parse, history, dir[n].name).value;
      } else {
        assert (id in Catalogue(parse, history, dir)) == (id in Catalogue(parse, history, front));
        if id in Catalogue(parse, history, front) && Catalogue(parse, history, front)[id] == r {
          var i :| 0 <= i < n && Offers(parse, history, front[i], id)
            && LastGood(parse, history, front[i].name) == Some(r)
            && forall j :: i < j < n ==> !Offers(parse, history, front[j], id);
          assert Offers(parse, history, dir[i], id);
        }
      }
    }
  }

  lemma {:induction false} LookAt(parse: Parser, dir: Directory, i: nat)
    requires DistinctNames(dir) && i < |dir| && Eligible(dir[i])
    ensures Look(parse, dir, dir[i].name) == SightOf(parse, dir[i])
  {
    if i < |dir| - 1 {
      LookAt(parse, dir[..|dir| - 1], i);
    }
  }

  lemma {:induction false} LookIsAbsent(parse: Parser, dir: Directory, name: string)
    ensures Look(parse, dir, name) == Absent
      <==> forall i :: 0 <= i < |dir| && Eligible(dir[i]) ==> dir[i].name != name
  {
    if dir != [] {
      var front := dir[..|dir| - 1];
      LookIsAbsent(parse, front, name);
      assert forall i :: 0 <= i < |front| ==> front[i] == dir[i];
    }
  }

  // ----- the caches in the middle of a scan -----

  predicate Listed(dir: Directory, i: nat, name: string)
    requires i <= |dir|
  {
    exists j :: 0 <= j < i && Eligible(dir[j]) && dir[j].name == name
  }

  // The cache is that of the new directory for the entries read, and as before elsewhere.
  ghost predicate Midway(parse: Parser, history: seq<Directory>, dir: Directory, i: nat, pathLast: map<string, Resolved>)
    requires i <= |dir|
  {
    forall name :: Lookup(pathLast, name) ==
      LastGood(parse, if Listed(dir, i, name) then history + [dir] else history, name)
  }

  ghost predicate SameIds(pathLast: map<string, Resolved>, pathToID: map<string, string>) {
    && pathToID.Keys == pathLast.Keys
    && forall name :: name in pathLast ==> pathToID[name] == pathLast[name].manifest.id
  }

  function AfterReading(parse: Parser, e: DirEntry, pathLast: map<string, Resolved>): map<string, Resolved> {
    match SightOf(parse, e)
    case Good(r) => pathLast[e.name := r]
    case _ => pathLast
  }

  lemma MidwayStart(parse: Parser, history: seq<Directory>, dir: Directory, pathLast: map<string, Resolved>)
    requires forall name :: Lookup(pathLast, name) == LastGood(parse, history, name)
    ensures Midway(parse, history, dir, 0, pathLast)
  {
  }

  lemma MidwayStep(parse: Parser, history: seq<Directory>, dir: Directory, i: nat, pathLast: map<string, Resolved>)
    requires DistinctNames(dir) && i < |dir| && Midway(parse, history, dir, i, pathLast)
    ensures Midway(parse, history, dir, i + 1, AfterReading(parse, dir[i], pathLast))
    ensures Eligible(dir[i]) ==>
      Lookup(AfterReading(parse, dir[i], pathLast), dir[i].name) == LastGood(parse, history + [dir], dir[i].name)
  {
    var e := dir[i];
    assert (history + [dir])[..|history|] == history;
    if Eligible(e) { LookAt(parse, dir, i); }
    var after := AfterReading(parse, e, pathLast);
    assert Eligible(e) ==> Lookup(after, e.name) == LastGood(parse, history + [dir], e.name);
    assert !Eligible(e) ==> after == pathLast;
    assert forall name :: name != e.name ==> Lookup(after, name) == Lookup(pathLast, name);
    hide LastGood, AfterReading, Look, Eligible;
    forall name
      ensures Lookup(after, name) ==
        LastGood(parse, if Listed(dir, i + 1, name) then history + [dir] else history, name)
    {
      assert Listed(dir, i + 1, name) <==> Listed(dir, i, name) || (Eligible(e) && name == e.name);
    }
  }

  lemma AtTheEnd(parse: Parser, history: seq<Directory>, dir: Directory,
      pathLast: map<string, Resolved>, kept: map<string, Resolved>)
    requires Midway(parse, history, dir, |dir|, pathLast)
    requires kept == map path | path in pathLast && Listed(dir, |dir|, path) :: pathLast[path]
    ensures forall name :: Lookup(kept, name) == LastGood(parse, history + [dir], name)
  {
    forall name ensures Lookup(kept, name) == LastGood(parse, history + [dir], name) {
      LookIsAbsent(parse, dir, name);
      assert Listed(dir, |dir|, name) <==> Look(parse, dir, name) != Absent;
      assert Lookup(kept, name) == if Listed(dir, |dir|, name) then Lookup(pathLast, name) else None;
      assert (history + [dir])[|history|] == dir;
    }
  }

  lemma CatalogueStep(parse: Parser, history: seq<Directory>, dir: Directory, i: nat)
    requires i < |dir|
    ensures var last := LastGood(parse, history, dir[i].name);
      Catalogue(parse, history, dir[..i + 1])
      == if Eligible(dir[i]) && last.Some?
         then Catalogue(parse, history, dir[..i])[last.value.manifest.id := last.value]
         else Catalogue(parse, history, dir[..i])
  {
    assert dir[..i + 1][..i] == dir[..i];
  }

  lemma NothingCatalogued(parse: Parser, history: seq<Directory>, dir: Directory)
    requires dir == []
    ensures Catalogue(parse, history, dir) == map[]
  {
  }

  // ----- the registry -----

  class FileRegistry {
    const parse: Parser
    var pathLast: map<string, Resolved>
    var pathToID: map<string, string>
    var resolved: map<string, Resolved>
    // The directories scanned so far.
    ghost var history: seq<Directory>

    ghost predicate Valid()
      reads this
    {
      && (forall name :: Lookup(pathLast, name) == LastGood(parse, history, name))
      && SameIds(pathLast, pathToID)
      && resolved == if history == [] then map[] else Catalogue(parse, history, history[|history| - 1])
    }

    constructor (parse: Parser)
      ensures Valid() && history == [] && this.parse == parse
    {
      this.parse, pathLast, pathToID, resolved, history := parse, map[], map[], map[], [];
    }

    // Whatever the run of scans, the caches and the map are those of the directories seen.
    // A directory that cannot be read is not seen.
    method Scan(entries: Option<Directory>)
      requires Valid() && (entries.Some? ==> DistinctNames(entries.value))
      modifies this
      ensures Valid()
      ensures history == old(history) + if entries.Some? then [entries.value] else []
      ensures entries.None? ==> resolved == old(resolved) && pathLast == old(pathLast)
    {
      hide LastGood, Catalogue, Midway, SameIds, Listed, Eligible;
      if entries.None? {
        return;
      }
      var dir := entries.value;
      MidwayStart(parse, history, dir, pathLast);
      var currentPaths, newResolved := ReadDirectory(dir);
      ghost var last := pathLast;
      DropAbsent(currentPaths);
      AtTheEnd(parse, history, dir, last, pathLast);
      resolved := newResolved;
      history := history + [dir];
    }

    // file_registry.go:119-172: the paths of the eligible entries, and their catalogue.
    method ReadDirectory(dir: Directory) returns (currentPaths: set<string>, newResolved: map<string, Resolved>)
      requires DistinctNames(dir) && SameIds(pathLast, pathToID) && Midway(parse, history, dir, 0, pathLast)
      modifies this`pathLast, this`pathToID
      ensures SameIds(pathLast, pathToID) && Midway(parse, history, dir, |dir|, pathLast)
      ensures forall name :: name in currentPaths <==> Listed(dir, |dir|, name)
      ensures newResolved == Catalogue(parse, history + [dir], dir)
    {
      hide LastGood, Catalogue, Midway, SameIds;
      ghost var seen := history + [dir];
      currentPaths, newResolved := {}, map[];
      NothingCatalogued(parse, seen, dir[..0]);
      for i := 0 to |dir|
        invariant SameIds(pathLast, pathToID)
        invariant forall name :: name in currentPaths <==> Listed(dir, i, name)
        invariant newResolved == Catalogue(parse, seen, dir[..i])
        invariant Midway(parse, history, dir, i, pathLast)
      {
        var e := dir[i];
        CatalogueStep(parse, seen, dir, i);
        MidwayStep(parse, history, dir, i, pathLast);
        if Eligible(e) {
          currentPaths := currentPaths + {e.name};
          var r, hasLast := ReadEntry(e);
          if hasLast {
            newResolved := newResolved[r.manifest.id := r];
          }
        }
      }
      assert dir[..|dir|] == dir;
    }

    // file_registry.go:138-173: the last good version of one file.
    method ReadEntry(e: DirEntry) returns (r: Resolved, hasLast: bool)
      requires SameIds(pathLast, pathToID) && Eligible(e)
      modifies this`pathLast, this`pathToID
      ensures pathLast == AfterReading(parse, e, old(pathLast)) && SameIds(pathLast, pathToID)
      ensures hasLast <==> e.name in pathLast
      ensures hasLast ==> r == pathLast[e.name]
    {
      var m: Option<Manifest> := None;
      if e.content.Some? {
        m := parse(e.content.value);
      }
      if m.None? {
        hasLast := e.name in pathLast;
        r := if hasLast then pathLast[e.name] else Resolved(Manifest("", ""), "");
        return;
      }
      r, hasLast := Resolved(m.value, "file"), true;
      pathLast := pathLast[e.name := r];
      pathToID := pathToID[e.name := m.value.id];
    }

    // file_registry.go:176-183.
    method DropAbsent(currentPaths: set<string>)
      requires SameIds(pathLast, pathToID)
      modifies this`pathLast, this`pathToID
      ensures pathLast == map path | path in old(pathLast) && path in currentPaths :: old(pathLast)[path]
      ensures SameIds(pathLast, pathToID)
    {
      var rest := pathLast.Keys;
      while rest != {}
        invariant rest <= old(pathLast).Keys
        invariant pathLast == map path | path in old(pathLast) && (path in currentPaths || path in rest) :: old(pathLast)[path]
        invariant SameIds(pathLast, pathToID)
      {
        var path :| path in rest;
        rest := rest - {path};
        if path !in currentPaths {
          pathLast := pathLast - {path};
          pathToID := pathToID - {path};
        }
      }
    }
  }
}

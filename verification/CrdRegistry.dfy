/**
 CRDRegistry (internal/plugins/crd_registry.go): a cache of the plugin manifests in custom
 resources, kept by the informer's add, update and delete events.
 */
module CrdRegistry {
  import opened Wrappers
  import opened Plugins

  datatype Object =
    | Resource(name: string, content: string)
    | Other                     // not an Unstructured
    | Tombstone(last: Object)   // DeletedFinalStateUnknown

  datatype Event = Upserted(obj: Object) | Deleted(obj: Object)

  datatype Cache = Cache(resolved: map<string, Resolved>, nameToID: map<string, string>)

  const EMPTY := Cache(map[], map[])

  // ----- what an event means -----

  // A valid version of a custom resource. `parse` stands for the conversion, the
  // marshalling and ParseManifest.
  function Version(parse: Parser, e: Event): Option<(string, Manifest)> {
    if e.Upserted? && e.obj.Resource? && parse(e.obj.content).Some?
    then Some((e.obj.name, parse(e.obj.content).value))
    else None
  }

  // The resource that is gone.
  function Gone(e: Event): Option<string> {
    if e.Upserted? then None
    else
      var obj := if e.obj.Tombstone? then e.obj.last else e.obj;
      if obj.Resource? then Some(obj.name) else None
  }

  // crd_registry.go:79-150.
  function Step(parse: Parser, c: Cache, e: Event): Cache {
    match e
    case Upserted(_) =>
      (match Version(parse, e)
       case Some((name, m)) => Cache(c.resolved[m.id := Resolved(m, "crd")], c.nameToID[name := m.id])
       case None => c)
    case Deleted(_) =>
      (match Gone(e)
       case Some(name) =>
         if name in c.nameToID then Cache(c.resolved - {c.nameToID[name]}, c.nameToID - {name}) else c
       case None => c)
  }

  class CRDRegistry {
    const parse: Parser
    var resolved: map<string, Resolved>
    var nameToID: map<string, string>
    ghost var log: seq<Event>
    ghost var broadcasts: nat

    ghost function Value(): Cache
      reads this
    {
      Cache(resolved, nameToID)
    }

    ghost predicate Valid()
      reads this
    {
      Value() == After(parse, log)
    }

    constructor (parse: Parser)
      ensures Valid() && this.parse == parse && log == []
    {
      this.parse, resolved, nameToID, log, broadcasts := parse, map[], map[], [], 0;
    }

    method Upsert(obj: Object)
      requires Valid()
      modifies this
      ensures Valid() && log == old(log) + [Upserted(obj)]
      ensures Value() == Step(parse, old(Value()), Upserted(obj))
      ensures broadcasts == old(broadcasts) + if Version(parse, Upserted(obj)).Some? then 1 else 0
    {
      ghost var before := log;
      log := log + [Upserted(obj)];
      assert log[..|before|] == before;
      if !obj.Resource? {
        return;
      }
      var m := parse(obj.content);
      if m.None? {
        return;
      }
      resolved := resolved[m.value.id := Resolved(m.value, "crd")];
      nameToID := nameToID[obj.name := m.value.id];
      broadcasts := broadcasts + 1;
    }

    method Delete(obj: Object)
      requires Valid()
      modifies this
      ensures Valid() && log == old(log) + [Deleted(obj)]
      ensures Value() == Step(parse, old(Value()), Deleted(obj))
      ensures broadcasts == old(broadcasts) + if Value() == old(Value()) then 0 else 1
    {
      ghost var before := log;
      log := log + [Deleted(obj)];
      assert log[..|before|] == before;
      var o := if obj.Tombstone? then obj.last else obj;
      if !o.Resource? {
        return;
      }
      var found := o.name in nameToID;
      if found {
        resolved := resolved - {nameToID[o.name]};
        nameToID := nameToID - {o.name};
        broadcasts := broadcasts + 1;
      }
    }
  }

  // ----- the cache over any sequence of events -----

  ghost function After(parse: Parser, log: seq<Event>): Cache {
    if log == [] then EMPTY else Step(parse, After(parse, log[..|log| - 1]), log[|log| - 1])
  }

  // A valid version is found under its id, and its resource under its name; anything else that
  // is added or updated changes nothing.
  lemma UpsertIsRead(parse: Parser, log: seq<Event>, obj: Object)
    ensures var c, d := After(parse, log), After(parse, log + [Upserted(obj)]);
      if obj.Resource? && parse(obj.content).Some? then
        var m := parse(obj.content).value;
        d == Cache(c.resolved[m.id := Resolved(m, "crd")], c.nameToID[obj.name := m.id])
      else d == c
  {
    assert (log + [Upserted(obj)])[..|log|] == log;
  }

  // A resource that is deleted, or of which only a tombstone tells, is gone from the index with
  // the entry it had there.
  lemma DeletionIsRead(parse: Parser, log: seq<Event>, obj: Object, name: string)
    requires (obj.Resource? && obj.name == name) || (obj.Tombstone? && obj.last.Resource? && obj.last.name == name)
    ensures var c, d := After(parse, log), After(parse, log + [Deleted(obj)]);
      if name in c.nameToID then
        d == Cache(map id | id in c.resolved && id != c.nameToID[name] :: c.resolved[id], c.nameToID - {name})
      else d == c
  {
    assert (log + [Deleted(obj)])[..|log|] == log;
  }

  // What is no resource cannot be deleted.
  lemma OtherDeletionIsIgnored(parse: Parser, log: seq<Event>, obj: Object)
    requires obj.Other? || (obj.Tombstone? && !obj.last.Resource?)
    ensures After(parse, log + [Deleted(obj)]) == After(parse, log)
  {
    assert (log + [Deleted(obj)])[..|log|] == log;
  }

  lemma {:induction false} AfterIsKeyed(parse: Parser, log: seq<Event>)
    ensures KeyedById(After(parse, log).resolved)
  {
    if log != [] { AfterIsKeyed(parse, log[..|log| - 1]); }
  }

  // The living resources with their last valid versions.
  ghost function Live(parse: Parser, log: seq<Event>): map<string, Manifest> {
    if log == [] then map[] else LiveAfter(parse, Live(parse, log[..|log| - 1]), log[|log| - 1])
  }

  ghost function LiveAfter(parse: Parser, live: map<string, Manifest>, e: Event): map<string, Manifest> {
    match Version(parse, e)
    case Some((name, m)) => live[name := m]
    case None => if Gone(e).Some? then live - {Gone(e).value} else live
  }

  ghost predicate Concerns(parse: Parser, e: Event, name: string) {
    Gone(e) == Some(name) || (Version(parse, e).Some? && Version(parse, e).value.0 == name)
  }

  lemma NotBoth(parse: Parser, e: Event)
    ensures Version(parse, e).None? || Gone(e).None?
  {
  }

  // A living resource's version is the last valid one, and it was not deleted since.
  lemma {:induction false} LiveIff(parse: Parser, log: seq<Event>, name: string, m: Manifest)
    ensures (name in Live(parse, log) && Live(parse, log)[name] == m)
      <==> exists k :: 0 <= k < |log| && Version(parse, log[k]) == Some((name, m))
             && forall j :: k < j < |log| ==> !Concerns(parse, log[j], name)
  {
    hide Version, Gone;
    if log != [] {
      NotBoth(parse, log[|log| - 1]);
      var front, n := log[..|log| - 1], |log| - 1;
      LiveIff(parse, front, name, m);
      assert forall k :: 0 <= k < n ==> front[k] == log[k];
      if !Concerns(parse, log[n], name) && name in Live(parse, front) && Live(parse, front)[name] == m {
        var k :| 0 <= k < n && Version(parse, front[k]) == Some((name, m))
          && forall j :: k < j < n ==> !Concerns(parse, front[j], name);
        assert Version(parse, log[k]) == Some((name, m));
      }
    }
  }

  // In terms of the objects: the last valid version, with no other valid one and no deletion since.
  lemma LiveMeans(parse: Parser, log: seq<Event>, name: string, m: Manifest)
    ensures (name in Live(parse, log) && Live(parse, log)[name] == m)
      <==> exists k :: 0 <= k < |log| && IsVersion(parse, log[k], name, m)
             && forall j :: k < j < |log| ==> !IsDeletion(log[j], name) && forall n :: !IsVersion(parse, log[j], name, n)
  {
    hide Live;
    LiveIff(parse, log, name, m);
    forall k | 0 <= k < |log|
      ensures Version(parse, log[k]) == Some((name, m)) <==> IsVersion(parse, log[k], name, m)
      ensures Concerns(parse, log[k], name) <==> IsDeletion(log[k], name) || exists n :: IsVersion(parse, log[k], name, n)
    {
      EventMeans(parse, log[k], name, m);
    }
    hide Version, Concerns, IsVersion, IsDeletion;
  }

  predicate IsVersion(parse: Parser, e: Event, name: string, m: Manifest) {
    e.Upserted? && e.obj.Resource? && e.obj.name == name && parse(e.obj.content) == Some(m)
  }

  predicate IsDeletion(e: Event, name: string) {
    e.Deleted? &&
    ((e.obj.Resource? && e.obj.name == name) || (e.obj.Tombstone? && e.obj.last.Resource? && e.obj.last.name == name))
  }

  lemma EventMeans(parse: Parser, e: Event, name: string, m: Manifest)
    ensures Version(parse, e) == Some((name, m)) <==> IsVersion(parse, e, name, m)
    ensures Concerns(parse, e, name) <==> IsDeletion(e, name) || exists n :: IsVersion(parse, e, name, n)
  {
    if Version(parse, e).Some? { assert IsVersion(parse, e, Version(parse, e).value.0, Version(parse, e).value.1); }
  }

  // Whatever the events, the index names the living resources and their ids.
  lemma {:induction false} IndexNamesTheLiving(parse: Parser, log: seq<Event>)
    ensures After(parse, log).nameToID == map name | name in Live(parse, log) :: Live(parse, log)[name].id
  {
    if log != [] { IndexNamesTheLiving(parse, log[..|log| - 1]); }
  }

  // The cache maps each living resource's id to its last valid version, holds nothing else,
  // and the index is the exact inverse of that.
  ghost predicate Exact(resolved: map<string, Resolved>, live: map<string, Manifest>) {
    && (forall n, n' :: n in live && n' in live && live[n].id == live[n'].id ==> n == n')
    && (forall n :: n in live ==> live[n].id in resolved && resolved[live[n].id] == Resolved(live[n], "crd"))
    && (forall id :: id in resolved ==> exists n :: n in live && live[n].id == id)
  }

  // A new version keeps the id its resource had, and no other living resource has that id.
  ghost predicate Orderly(parse: Parser, live: map<string, Manifest>, e: Event) {
    match Version(parse, e)
    case Some((name, m)) => forall n :: n in live ==> (n == name <==> live[n].id == m.id)
    case None => true
  }

  lemma VersionIsExactIff(resolved: map<string, Resolved>, live: map<string, Manifest>, name: string, m: Manifest)
    requires Exact(resolved, live)
    ensures Exact(resolved[m.id := Resolved(m, "crd")], live[name := m])
      <==> forall n :: n in live ==> (n == name <==> live[n].id == m.id)
  {
    var resolved', live' := resolved[m.id := Resolved(m, "crd")], live[name := m];
    if Exact(resolved', live') {
      forall n | n in live ensures n == name <==> live[n].id == m.id {
        assert n != name ==> live'[n] == live[n];
        assert live[n].id in resolved';
      }
    } else if forall n :: n in live ==> (n == name <==> live[n].id == m.id) {
      assert forall id :: id in resolved' && id != m.id ==> exists n :: n in live && live[n].id == id && n != name;
      assert forall n :: n in live' && n != name ==> n in live && live'[n] == live[n];
      assert live'[name] == m;
      assert Exact(resolved', live');
    }
  }

  lemma DeletionIsExact(resolved: map<string, Resolved>, live: map<string, Manifest>, name: string)
    requires Exact(resolved, live) && name in live
    ensures Exact(resolved - {live[name].id}, live - {name})
  {
    var resolved', live' := resolved - {live[name].id}, live - {name};
    forall id | id in resolved' ensures exists n :: n in live' && live'[n].id == id {
      var n :| n in live && live[n].id == id;
      assert n in live' && live'[n].id == id;
    }
  }

  // An event keeps the cache exact if and only if it is orderly.
  lemma StepIsExactIff(parse: Parser, log: seq<Event>, e: Event)
    requires Exact(After(parse, log).resolved, Live(parse, log))
    ensures Exact(After(parse, log + [e]).resolved, Live(parse, log + [e])) <==> Orderly(parse, Live(parse, log), e)
  {
    assert (log + [e])[..|log|] == log;
    IndexNamesTheLiving(parse, log);
    var c, live := After(parse, log), Live(parse, log);
    hide Exact;
    match Version(parse, e)
    case Some((name, m)) => VersionIsExactIff(c.resolved, live, name, m);
    case None =>
      if Gone(e).Some? && Gone(e).value in live {
        DeletionIsExact(c.resolved, live, Gone(e).value);
      } else if Gone(e).Some? {
        assert live - {Gone(e).value} == live;
      }
  }

  ghost predicate AllOrderly(parse: Parser, log: seq<Event>) {
    log == [] ||
    (var before := log[..|log| - 1];
     AllOrderly(parse, before) && Orderly(parse, Live(parse, before), log[|log| - 1]))
  }

  ghost predicate ExactAfter(parse: Parser, log: seq<Event>) {
    Exact(After(parse, log).resolved, Live(parse, log))
  }

  // The cache is exact at every moment of a run if and only if every event of it is orderly.
  lemma {:induction false} AlwaysExactIff(parse: Parser, log: seq<Event>)
    ensures (forall k :: 0 <= k <= |log| ==> ExactAfter(parse, log[..k])) <==> AllOrderly(parse, log)
  {
    hide Exact, Orderly;
    if log == [] {
      EmptyIsExact(parse);
      assert log[..0] == [];
    } else {
      var front, n := log[..|log| - 1], |log| - 1;
      AlwaysExactIff(parse, front);
      assert forall k :: 0 <= k <= n ==> front[..k] == log[..k];
      assert front == log[..n] && front + [log[n]] == log == log[..n + 1];
      if ExactAfter(parse, front) { StepIsExactIff(parse, front, log[n]); }
    }
  }

  lemma EmptyIsExact(parse: Parser)
    ensures ExactAfter(parse, [])
  {
  }

  // A resource that changes its id leaves its old entry behind, even when it is deleted.
  lemma ChangedIdLeavesAnEntry(parse: Parser, name: string, first: string, second: string)
    requires parse(first).Some? && parse(second).Some? && parse(first).value.id != parse(second).value.id
    ensures var log := [Upserted(Resource(name, first)), Upserted(Resource(name, second)), Deleted(Resource(name, second))];
      && Live(parse, log) == map[]
      && After(parse, log) == Cache(map[parse(first).value.id := Resolved(parse(first).value, "crd")], map[])
  {
    var log := [Upserted(Resource(name, first)), Upserted(Resource(name, second)), Deleted(Resource(name, second))];
    assert log[..2][..1] == log[..1] && log[..1][..0] == [];
    var m, m' := parse(first).value, parse(second).value;
    assert After(parse, log[..1]) == Cache(map[m.id := Resolved(m, "crd")], map[name := m.id]);
    assert After(parse, log[..2]).nameToID == map[name := m'.id];
    assert Live(parse, log[..1]) == map[name := m];
    assert Live(parse, log[..2]) == map[name := m'];
    assert log[..3] == log;
  }
}

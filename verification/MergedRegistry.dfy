/**
 MergedRegistry.rebuild (internal/plugins/registry.go): the merge of the plugin registries by
 precedence, and the log of the plugins that are shadowed.
 */
module MergedRegistry {
  import opened Wrappers
  import opened Plugins

  type Hash = Manifest -> string

  datatype Shadow = Shadow(id: string, winning: string, shadowed: string, winHash: string, shadowHash: string)

  // ----- which entry wins -----

  // What each source's List returned, the highest precedence first.
  type Lists = seq<seq<Resolved>>

  function First(rs: seq<Resolved>, id: string): Option<Resolved> {
    if rs == [] then None else if rs[0].manifest.id == id then Some(rs[0]) else First(rs[1..], id)
  }

  // The entry of the first source that lists the id.
  function Winner(lists: Lists, id: string): Option<Resolved> {
    if lists == [] then None
    else if First(lists[0], id).Some? then First(lists[0], id)
    else Winner(lists[1..], id)
  }

  predicate Listed(lists: Lists, r: Resolved) {
    exists i :: 0 <= i < |lists| && r in lists[i]
  }

  function ShadowOf(hash: Hash, winner: Resolved, loser: Resolved): Shadow {
    Shadow(winner.manifest.id, winner.source, loser.source, hash(winner.manifest), hash(loser.manifest))
  }

  // A listed entry loses to one with another hash.
  ghost predicate Shadows(hash: Hash, lists: Lists, x: Shadow) {
    exists r :: Listed(lists, r) && ShadowedBy(hash, Winner(lists, r.manifest.id), r, x)
  }

  ghost predicate ShadowedBy(hash: Hash, winner: Option<Resolved>, r: Resolved, x: Shadow) {
    winner.Some? && hash(r.manifest) != hash(winner.value.manifest) && x == ShadowOf(hash, winner.value, r)
  }

  // A shadowing is logged with the source and hash of the entry that is shown and those of the one
  // that is not.
  lemma ShadowsMean(hash: Hash, lists: Lists, x: Shadow)
    ensures Shadows(hash, lists, x) <==>
      exists shown, hidden :: Wins(lists, shown) && Listed(lists, hidden) && Describes(hash, x, shown, hidden)
  {
    if Shadows(hash, lists, x) {
      var r :| Listed(lists, r) && ShadowedBy(hash, Winner(lists, r.manifest.id), r, x);
      var w := Winner(lists, r.manifest.id).value;
      WinnerIsFirst(lists, r.manifest.id);
      FirstIsMember(Flat(lists), r.manifest.id);
      assert Wins(lists, w) && Describes(hash, x, w, r);
    }
    if w, r :| Wins(lists, w) && Listed(lists, r) && Describes(hash, x, w, r) {
      assert ShadowedBy(hash, Winner(lists, r.manifest.id), r, x);
    }
  }

  // It is shown for its id.
  ghost predicate Wins(lists: Lists, r: Resolved) {
    Winner(lists, r.manifest.id) == Some(r)
  }

  ghost predicate Describes(hash: Hash, x: Shadow, shown: Resolved, hidden: Resolved) {
    && x.id == shown.manifest.id == hidden.manifest.id
    && x.winning == shown.source && x.shadowed == hidden.source
    && x.winHash == hash(shown.manifest) != hash(hidden.manifest) == x.shadowHash
  }

  // ----- the entries of one id, in order -----

  function Flat(lists: Lists): seq<Resolved> {
    if lists == [] then [] else lists[0] + Flat(lists[1..])
  }

  function Of(rs: seq<Resolved>, id: string): seq<Resolved> {
    if rs == [] then []
    else Of(rs[..|rs| - 1], id) + if rs[|rs| - 1].manifest.id == id then [rs[|rs| - 1]] else []
  }

  lemma OfAppend(rs: seq<Resolved>, r: Resolved, id: string)
    ensures Of(rs + [r], id) == Of(rs, id) + if r.manifest.id == id then [r] else []
  {
    assert (rs + [r])[..|rs|] == rs;
  }

  lemma {:induction false} FlatAppend(lists: Lists, list: seq<Resolved>)
    ensures Flat(lists + [list]) == Flat(lists) + list
  {
    if lists == [] {
      assert Flat([list][1..]) == [];
    } else {
      assert (lists + [list])[1..] == lists[1..] + [list];
      FlatAppend(lists[1..], list);
    }
  }

  lemma {:induction false} OfMembers(rs: seq<Resolved>, id: string)
    ensures forall r :: r in Of(rs, id) <==> r in rs && r.manifest.id == id
  {
    if rs != [] {
      OfMembers(rs[..|rs| - 1], id);
      assert rs == rs[..|rs| - 1] + [rs[|rs| - 1]];
    }
  }

  lemma {:induction false} FirstAppend(a: seq<Resolved>, b: seq<Resolved>, id: string)
    ensures First(a + b, id) == if First(a, id).Some? then First(a, id) else First(b, id)
  {
    if a == [] {
      assert a + b == b;
    } else {
      assert (a + b)[1..] == a[1..] + b;
      FirstAppend(a[1..], b, id);
    }
  }

  lemma {:induction false} OfFirst(rs: seq<Resolved>, id: string)
    ensures First(rs, id) == if Of(rs, id) == [] then None else Some(Of(rs, id)[0])
  {
    if rs != [] {
      var front, last := rs[..|rs| - 1], rs[|rs| - 1];
      OfFirst(front, id);
      FirstAppend(front, [last], id);
      assert front + [last] == rs;
      assert [last][1..] == [];
    }
  }

  lemma {:induction false} WinnerIsFirst(lists: Lists, id: string)
    ensures Winner(lists, id) == First(Flat(lists), id)
  {
    if lists != [] {
      WinnerIsFirst(lists[1..], id);
      FirstAppend(lists[0], Flat(lists[1..]), id);
    }
  }

  lemma {:induction false} FlatMembers(lists: Lists)
    ensures forall r :: r in Flat(lists) <==> Listed(lists, r)
  {
    if lists != [] {
      FlatMembers(lists[1..]);
      assert forall r :: Listed(lists[1..], r) ==> Listed(lists, r) by {
        forall r | Listed(lists[1..], r) ensures Listed(lists, r) {
          var i :| 0 <= i < |lists| - 1 && r in lists[1..][i];
          assert r in lists[i + 1];
        }
      }
      assert forall r :: Listed(lists, r) ==> r in lists[0] || Listed(lists[1..], r) by {
        forall r | Listed(lists, r) && r !in lists[0] ensures Listed(lists[1..], r) {
          var i :| 0 <= i < |lists| && r in lists[i];
          assert r in lists[1..][i - 1];
        }
      }
    }
  }

  // ----- the key of a shadow event -----

  function Key(x: Shadow): string {
    x.id + "|" + (x.winning + "|" + (x.shadowed + "|" + (x.winHash + "|" + x.shadowHash)))
  }

  predicate Plain(x: Shadow) {
    '|' !in x.id && '|' !in x.winning && '|' !in x.shadowed && '|' !in x.winHash
  }

  lemma KeyIsInjective(x: Shadow, y: Shadow)
    requires Plain(x) && Plain(y) && Key(x) == Key(y)
    ensures x == y
  {
    var x3, y3 := x.winHash + "|" + x.shadowHash, y.winHash + "|" + y.shadowHash;
    var x2, y2 := x.shadowed + "|" + x3, y.shadowed + "|" + y3;
    FirstSplitIsUnique(x.id, x.winning + "|" + x2, y.id, y.winning + "|" + y2, '|');
    FirstSplitIsUnique(x.winning, x2, y.winning, y2, '|');
    FirstSplitIsUnique(x.shadowed, x3, y.shadowed, y3, '|');
    FirstSplitIsUnique(x.winHash, x.shadowHash, y.winHash, y.shadowHash, '|');
  }

  // The names of the sources and the hashes are without bars; the ids are valid.
  ghost predicate PlainLists(hash: Hash, lists: Lists) {
    && (forall m :: '|' !in hash(m))
    && forall r :: Listed(lists, r) ==> ValidId(r.manifest.id) && '|' !in r.source
  }

  lemma {:induction false} FirstIsMember(rs: seq<Resolved>, id: string)
    ensures First(rs, id).Some? ==> First(rs, id).value in rs && First(rs, id).value.manifest.id == id
  {
    if rs != [] { FirstIsMember(rs[1..], id); }
  }

  lemma ShadowsArePlain(hash: Hash, lists: Lists, x: Shadow)
    requires PlainLists(hash, lists) && Shadows(hash, lists, x)
    ensures Plain(x)
  {
    var r :| Listed(lists, r) && ShadowedBy(hash, Winner(lists, r.manifest.id), r, x);
    WinnerIsFirst(lists, r.manifest.id);
    FirstIsMember(Flat(lists), r.manifest.id);
    FlatMembers(lists);
  }

  // ----- the log over all rebuilds -----

  // `logged` are the keys of what was warned about, each once; nothing was warned about that
  // did not happen, and nothing happened whose key was not logged.
  ghost predicate LogOk(hash: Hash, rebuilds: seq<Lists>, warned: seq<Shadow>, logged: set<string>) {
    && (forall i, j :: 0 <= i < j < |warned| ==> Key(warned[i]) != Key(warned[j]))
    && (forall key :: key in logged <==> exists i :: 0 <= i < |warned| && Key(warned[i]) == key)
    && (forall i :: 0 <= i < |warned| ==> exists k :: 0 <= k < |rebuilds| && Shadows(hash, rebuilds[k], warned[i]))
    && (forall k, x :: 0 <= k < |rebuilds| && Shadows(hash, rebuilds[k], x) ==> Key(x) in logged)
  }

  // Over any sequence of rebuilds, each shadowing is logged exactly once.
  lemma ShadowsAreLoggedOnce(hash: Hash, rebuilds: seq<Lists>, warned: seq<Shadow>, logged: set<string>)
    requires LogOk(hash, rebuilds, warned, logged)
    requires forall k :: 0 <= k < |rebuilds| ==> PlainLists(hash, rebuilds[k])
    ensures forall x :: x in warned <==> exists k :: 0 <= k < |rebuilds| && Shadows(hash, rebuilds[k], x)
    ensures forall i, j :: 0 <= i < j < |warned| ==> warned[i] != warned[j]
  {
    forall k, x | 0 <= k < |rebuilds| && Shadows(hash, rebuilds[k], x) ensures x in warned {
      var i :| 0 <= i < |warned| && Key(warned[i]) == Key(x);
      var k' :| 0 <= k' < |rebuilds| && Shadows(hash, rebuilds[k'], warned[i]);
      ShadowsArePlain(hash, rebuilds[k], x);
      ShadowsArePlain(hash, rebuilds[k'], warned[i]);
      KeyIsInjective(x, warned[i]);
    }
  }

  // ----- the registry -----

  type Entries = map<string, seq<Resolved>>

  // Every id that is listed, with its entries in the order of the sweep.
  ghost predicate Swept(all: Entries, rs: seq<Resolved>) {
    forall id :: (id in all <==> Of(rs, id) != []) && (id in all ==> all[id] == Of(rs, id))
  }

  class MergedRegistry {
    const hash: Hash
    var resolved: map<string, Resolved>
    var loggedShadows: set<string>
    // What was logged, and what the sources listed at each rebuild.
    ghost var warned: seq<Shadow>
    ghost var rebuilds: seq<Lists>

    ghost predicate Valid()
      reads this
    {
      LogOk(hash, rebuilds, warned, loggedShadows)
    }

    constructor (hash: Hash)
      ensures Valid() && this.hash == hash && rebuilds == [] && resolved == map[]
    {
      this.hash, resolved, loggedShadows, warned, rebuilds := hash, map[], {}, [], [];
    }

    method Rebuild(lists: Lists)
      requires Valid()
      modifies this
      ensures Valid() && rebuilds == old(rebuilds) + [lists]
      ensures forall id :: Lookup(resolved, id) == Winner(lists, id)
      ensures old(warned) <= warned
    {
      var all := Sweep(lists);
      var newMap: map<string, Resolved> := map[];
      var pending := all.Keys;
      while pending != {}
        invariant pending <= all.Keys && newMap.Keys == all.Keys - pending
        invariant forall id :: id in newMap ==> newMap[id] == all[id][0]
      {
        var id :| id in pending;
        newMap := newMap[id := all[id][0]];
        pending := pending - {id};
      }
      resolved := newMap;
      forall id ensures Lookup(resolved, id) == Winner(lists, id) {
        WinnerIsFirst(lists, id);
        OfFirst(Flat(lists), id);
      }
      LogShadows(lists, all);
    }

    // registry.go:131-137.
    method Sweep(lists: Lists) returns (all: Entries)
      ensures Swept(all, Flat(lists))
    {
      all := map[];
      for i := 0 to |lists|
        invariant Swept(all, Flat(lists[..i]))
      {
        ghost var before := Flat(lists[..i]);
        FlatAppend(lists[..i], lists[i]);
        assert lists[..i + 1] == lists[..i] + [lists[i]];
        assert before + lists[i][..0] == before;
        for j := 0 to |lists[i]|
          invariant Swept(all, before + lists[i][..j])
        {
          var r := lists[i][j];
          assert before + lists[i][..j + 1] == before + lists[i][..j] + [r];
          forall id { OfAppend(before + lists[i][..j], r, id); }
          var id := r.manifest.id;
          all := all[id := (if id in all then all[id] else []) + [r]];
        }
        assert lists[i][..|lists[i]|] == lists[i];
      }
      assert lists[..|lists|] == lists;
    }

    // registry.go:152-187.
    method LogShadows(lists: Lists, all: Entries)
      requires Valid() && Swept(all, Flat(lists))
      modifies this`loggedShadows, this`warned, this`rebuilds
      ensures Valid() && rebuilds == old(rebuilds) + [lists] && old(warned) <= warned
    {
      ghost var logged := loggedShadows;
      var toLog: seq<Shadow> := [];
      var pending := all.Keys;
      while pending != {}
        invariant pending <= all.Keys && warned == old(warned) && rebuilds == old(rebuilds)
        invariant News(hash, lists, logged, loggedShadows, toLog)
        invariant forall id :: id in all && id !in pending ==> Covered(hash, all[id], |all[id]|, loggedShadows)
      {
        var id :| id in pending;
        toLog := LogLosers(lists, all, id, logged, toLog);
        pending := pending - {id};
      }
      NewsAreAll(hash, lists, all, loggedShadows);
      NewsKeepLog(hash, rebuilds, warned, logged, lists, loggedShadows, toLog);
      warned := warned + toLog;
      rebuilds := rebuilds + [lists];
    }

    // registry.go:153-175: the entries of one id.
    method LogLosers(lists: Lists, all: Entries, id: string, ghost logged: set<string>, toLog: seq<Shadow>)
      returns (more: seq<Shadow>)
      requires Swept(all, Flat(lists)) && id in all && News(hash, lists, logged, loggedShadows, toLog)
      modifies this`loggedShadows
      ensures News(hash, lists, logged, loggedShadows, more) && old(loggedShadows) <= loggedShadows
      ensures Covered(hash, all[id], |all[id]|, loggedShadows)
    {
      more := toLog;
      var entries := all[id];
      if |entries| < 2 {
        return;
      }
      var winner := entries[0];
      hide News, Shadows;
      for j := 1 to |entries|
        invariant News(hash, lists, logged, loggedShadows, more) && old(loggedShadows) <= loggedShadows
        invariant Covered(hash, entries, j, loggedShadows)
      {
        var loser := entries[j];
        if hash(loser.manifest) == hash(winner.manifest) {
          continue;
        }
        EntryShadows(hash, lists, all, id, j);
        var event := Shadow(id, winner.source, loser.source, hash(winner.manifest), hash(loser.manifest));
        var key := Key(event);
        if key in loggedShadows {
          continue;
        }
        OneMoreNews(hash, lists, logged, loggedShadows, more, event);
        loggedShadows := loggedShadows + {key};
        more := more + [event];
      }
    }
  }

  // ----- what one rebuild adds to the log -----

  ghost predicate News(hash: Hash, lists: Lists, before: set<string>, logged: set<string>, toLog: seq<Shadow>) {
    && (forall i, j :: 0 <= i < j < |toLog| ==> Key(toLog[i]) != Key(toLog[j]))
    && (forall i :: 0 <= i < |toLog| ==> Key(toLog[i]) !in before && Shadows(hash, lists, toLog[i]))
    && (forall key :: key in logged <==> key in before || exists i :: 0 <= i < |toLog| && Key(toLog[i]) == key)
  }

  lemma OneMoreNews(hash: Hash, lists: Lists, before: set<string>, logged: set<string>, toLog: seq<Shadow>, x: Shadow)
    requires News(hash, lists, before, logged, toLog) && Shadows(hash, lists, x) && Key(x) !in logged
    ensures News(hash, lists, before, logged + {Key(x)}, toLog + [x])
  {
    hide Key, Shadows;
    var more := toLog + [x];
    assert more[|toLog|] == x && forall i :: 0 <= i < |toLog| ==> more[i] == toLog[i];
    forall key ensures key in logged + {Key(x)} <==> key in before || exists i :: 0 <= i < |more| && Key(more[i]) == key {
      if key in logged && key !in before {
        var i :| 0 <= i < |toLog| && Key(toLog[i]) == key;
        assert Key(more[i]) == key;
      }
    }
  }

  ghost predicate Covered(hash: Hash, es: seq<Resolved>, n: nat, logged: set<string>)
    requires 0 < n ==> |es| >= n
  {
    forall j :: 0 <= j < n && hash(es[j].manifest) != hash(es[0].manifest) ==>
      Key(ShadowOf(hash, es[0], es[j])) in logged
  }

  lemma EntryShadows(hash: Hash, lists: Lists, all: Entries, id: string, j: nat)
    requires Swept(all, Flat(lists)) && id in all && j < |all[id]|
    requires hash(all[id][j].manifest) != hash(all[id][0].manifest)
    ensures all[id][0].manifest.id == id && Shadows(hash, lists, ShadowOf(hash, all[id][0], all[id][j]))
  {
    var r := all[id][j];
    OfMembers(Flat(lists), id);
    FlatMembers(lists);
    WinnerIsFirst(lists, id);
    OfFirst(Flat(lists), id);
    assert r in all[id] && all[id][0] in all[id];
    assert Listed(lists, r) && ShadowedBy(hash, Winner(lists, r.manifest.id), r, ShadowOf(hash, all[id][0], r));
  }

  lemma NewsAreAll(hash: Hash, lists: Lists, all: Entries, logged: set<string>)
    requires Swept(all, Flat(lists))
    requires forall id :: id in all ==> Covered(hash, all[id], |all[id]|, logged)
    ensures forall x :: Shadows(hash, lists, x) ==> Key(x) in logged
  {
    forall x | Shadows(hash, lists, x) ensures Key(x) in logged {
      var r :| Listed(lists, r) && ShadowedBy(hash, Winner(lists, r.manifest.id), r, x);
      var id := r.manifest.id;
      OfMembers(Flat(lists), id);
      FlatMembers(lists);
      WinnerIsFirst(lists, id);
      OfFirst(Flat(lists), id);
      var j :| 0 <= j < |all[id]| && all[id][j] == r;
    }
  }

  lemma NewsKeepLog(hash: Hash, rebuilds: seq<Lists>, warned: seq<Shadow>, before: set<string>,
      lists: Lists, logged: set<string>, toLog: seq<Shadow>)
    requires LogOk(hash, rebuilds, warned, before) && News(hash, lists, before, logged, toLog)
    requires forall x :: Shadows(hash, lists, x) ==> Key(x) in logged
    ensures LogOk(hash, rebuilds + [lists], warned + toLog, logged)
  {
    hide Key, Shadows;
    var all, rs := warned + toLog, rebuilds + [lists];
    assert rs[|rebuilds|] == lists && forall k :: 0 <= k < |rebuilds| ==> rs[k] == rebuilds[k];
    forall i | 0 <= i < |all| ensures exists k :: 0 <= k < |rs| && Shadows(hash, rs[k], all[i]) {
      if i < |warned| {
        var k :| 0 <= k < |rebuilds| && Shadows(hash, rebuilds[k], warned[i]);
        assert Shadows(hash, rs[k], all[i]);
      } else {
        assert Shadows(hash, rs[|rebuilds|], toLog[i - |warned|]);
      }
    }
    forall key ensures key in logged <==> exists i :: 0 <= i < |all| && Key(all[i]) == key {
      if key in before {
        var i :| 0 <= i < |warned| && Key(warned[i]) == key;
        assert all[i] == warned[i];
      } else if key in logged {
        var i :| 0 <= i < |toLog| && Key(toLog[i]) == key;
        assert all[|warned| + i] == toLog[i];
      }
    }
  }

  // ----- the merge does not depend on the order of the lists -----

  // What List returns for a cache, in the order of Go's map iteration.
  ghost predicate Enumerates(list: seq<Resolved>, resolved: map<string, Resolved>) {
    && (forall r :: r in list ==> r.manifest.id in resolved && resolved[r.manifest.id] == r)
    && (forall id :: id in resolved ==> resolved[id] in list)
  }

  // base_registry.go:26-35.
  method List(resolved: map<string, Resolved>) returns (out: seq<Resolved>)
    requires KeyedById(resolved)
    ensures Enumerates(out, resolved) && |out| == |resolved|
  {
    out := [];
    var rest := resolved.Keys;
    while rest != {}
      invariant rest <= resolved.Keys && |out| + |rest| == |resolved|
      invariant forall r :: r in out <==> exists id :: id in resolved && id !in rest && resolved[id] == r
    {
      var id :| id in rest;
      out := out + [resolved[id]];
      rest := rest - {id};
    }
  }

  // The value of the first cache, in the order of precedence, that has the id.
  ghost function Precedence(caches: seq<map<string, Resolved>>, id: string): Option<Resolved> {
    if caches == [] then None
    else if id in caches[0] then Some(caches[0][id])
    else Precedence(caches[1..], id)
  }

  lemma {:induction false} FirstIsLookup(list: seq<Resolved>, resolved: map<string, Resolved>, id: string)
    requires forall r :: r in list ==> r.manifest.id in resolved && resolved[r.manifest.id] == r
    ensures First(list, id) == if exists r :: r in list && r.manifest.id == id then Lookup(resolved, id) else None
  {
    if list != [] {
      assert list[0] in list;
      FirstIsLookup(list[1..], resolved, id);
      assert list == [list[0]] + list[1..];
    }
  }

  // Whatever the order of the lists, the winner is the precedence merge of the caches.
  lemma {:induction false} WinnerIsPrecedence(lists: Lists, caches: seq<map<string, Resolved>>, id: string)
    requires |lists| == |caches|
    requires forall i :: 0 <= i < |lists| ==> KeyedById(caches[i]) && Enumerates(lists[i], caches[i])
    ensures Winner(lists, id) == Precedence(caches, id)
  {
    if lists != [] {
      FirstIsLookup(lists[0], caches[0], id);
      assert id in caches[0] ==> caches[0][id] in lists[0];
      WinnerIsPrecedence(lists[1..], caches[1..], id);
    }
  }
}

/**
 The notifications between the plugin caches and their merge (internal/plugins/base_registry.go:39-59,
 registry.go:87-116) as a step system: a cache is changed and then announces the change on a
 channel with room for one token; a watcher per cache takes the token and rebuilds the merge,
 reading the caches one after the other. Rebuilds do not overlap.
 */
module Wakeups {
  import opened Wrappers
  import opened Plugins
  import opened MergedRegistry

  type Cache = map<string, Resolved>

  datatype Watcher = Unsubscribed | Idle | Woken | Rebuilding

  // `read` are the caches read so far, the first first.
  datatype Rebuild = Rebuild(owner: nat, read: seq<Cache>)

  // `announcing` counts the changes whose broadcast has not reached the channel. `merged` are
  // the caches the merge was last made from. History: `missed` are the caches with a broadcast
  // that found no subscriber, and that were not read since; `unread` are those that changed
  // and were not read since.
  datatype State = State(
    caches: seq<Cache>,
    announcing: seq<nat>,
    token: seq<bool>,
    watcher: seq<Watcher>,
    rebuild: Option<Rebuild>,
    merged: seq<Cache>,
    missed: set<nat>,
    unread: set<nat>)

  // After the first rebuild (registry.go:90).
  function Start(caches: seq<Cache>): State {
    State(
      caches,
      seq(|caches|, _ => 0),
      seq(|caches|, _ => false),
      seq(|caches|, _ => Unsubscribed),
      None, caches, {}, {})
  }

  datatype Action =
    | Change(i: nat, cache: Cache)
    | Announce(i: nat)
    | Subscribe(i: nat)
    | Receive(i: nat)
    | Begin(i: nat)
    | Read
    | Commit

  predicate Shaped(s: State) {
    var n := |s.caches|;
    |s.announcing| == n && |s.token| == n && |s.watcher| == n && |s.merged| == n
  }

  predicate Can(s: State, a: Action)
    requires Shaped(s)
  {
    match a
    case Change(i, _) => i < |s.caches|
    case Announce(i) => i < |s.caches| && s.announcing[i] > 0
    case Subscribe(i) => i < |s.caches| && s.watcher[i].Unsubscribed?
    case Receive(i) => i < |s.caches| && s.watcher[i].Idle? && s.token[i]
    case Begin(i) => i < |s.caches| && s.watcher[i].Woken? && s.rebuild.None?
    case Read => s.rebuild.Some? && |s.rebuild.value.read| < |s.caches|
    case Commit => s.rebuild.Some? && |s.rebuild.value.read| == |s.caches| && s.rebuild.value.owner < |s.caches|
  }

  function Do(s: State, a: Action): (t: State)
    requires Shaped(s) && Can(s, a)
    ensures Shaped(t) && |t.caches| == |s.caches|
  {
    match a
    case Change(i, cache) =>
      s.(caches := s.caches[i := cache], announcing := s.announcing[i := s.announcing[i] + 1], unread := s.unread + {i})
    case Announce(i) =>
      // A full channel drops the token.
      var t := s.(announcing := s.announcing[i := s.announcing[i] - 1]);
      if s.watcher[i].Unsubscribed? then t.(missed := t.missed + {i}) else t.(token := t.token[i := true])
    case Subscribe(i) => s.(watcher := s.watcher[i := Idle])
    case Receive(i) => s.(token := s.token[i := false], watcher := s.watcher[i := Woken])
    case Begin(i) => s.(watcher := s.watcher[i := Rebuilding], rebuild := Some(Rebuild(i, [])))
    case Read =>
      var r := s.rebuild.value;
      s.(rebuild := Some(r.(read := r.read + [s.caches[|r.read|]])), missed := s.missed - {|r.read|},
         unread := s.unread - {|r.read|})
    case Commit =>
      var r := s.rebuild.value;
      s.(merged := r.read, rebuild := None, watcher := s.watcher[r.owner := Idle])
  }

  function Exec(s: State, run: seq<Action>): (r: Option<State>)
    requires Shaped(s)
    ensures r.Some? ==> Shaped(r.value)
    decreases |run|
  {
    if run == [] then Some(s)
    else if Can(s, run[0]) then Exec(Do(s, run[0]), run[1..])
    else None
  }

  ghost predicate Reachable(s: State) {
    exists caches, run :: Exec(Start(caches), run) == Some(s)
  }

  // ----- no wakeup is lost -----

  // What the merge is, or will be after the rebuild under way, made from.
  predicate UpToDate(s: State, i: nat)
    requires Shaped(s) && i < |s.caches|
  {
    if s.rebuild.None? then s.merged[i] == s.caches[i]
    else i < |s.rebuild.value.read| ==> s.rebuild.value.read[i] == s.caches[i]
  }

  // A cache that changed since it was read has a change under way to the merge.
  predicate Noticed(s: State, i: nat)
    requires Shaped(s) && i < |s.caches|
  {
    && (i !in s.unread ==> UpToDate(s, i))
    && (i in s.unread ==> s.announcing[i] > 0 || s.token[i] || s.watcher[i].Woken? || i in s.missed
                          || (s.rebuild.Some? && |s.rebuild.value.read| <= i))
  }

  predicate Inv(s: State) {
    && Shaped(s)
    && (s.rebuild.Some? ==> s.rebuild.value.owner < |s.caches| && |s.rebuild.value.read| <= |s.caches|)
    && (forall i :: 0 <= i < |s.caches| ==>
          (s.watcher[i].Rebuilding? <==> s.rebuild.Some? && s.rebuild.value.owner == i))
    && (forall i :: 0 <= i < |s.caches| ==> Noticed(s, i))
    && (forall i :: i in s.unread ==> i < |s.caches|)
  }

  lemma StepKeeps(s: State, a: Action)
    requires Inv(s) && Can(s, a)
    ensures Inv(Do(s, a))
  {
    var t := Do(s, a);
    forall i | 0 <= i < |s.caches| ensures Noticed(t, i) {
      assert Noticed(s, i);
    }
  }

  lemma {:induction false} RunKeeps(s: State, run: seq<Action>)
    requires Inv(s) && Exec(s, run).Some?
    ensures Inv(Exec(s, run).value)
    decreases |run|
  {
    if run != [] {
      StepKeeps(s, run[0]);
      RunKeeps(Do(s, run[0]), run[1..]);
    }
  }

  lemma ReachableInv(s: State)
    requires Reachable(s)
    ensures Inv(s)
  {
    var caches, run :| Exec(Start(caches), run) == Some(s);
    RunKeeps(Start(caches), run);
  }

  // Nothing is announced, waiting in a channel, or between receive and rebuild.
  predicate Quiet(s: State)
    requires Shaped(s)
  {
    s.rebuild.None? &&
    forall i :: 0 <= i < |s.caches| ==> s.announcing[i] == 0 && !s.token[i] && s.watcher[i].Idle?
  }

  // When all is quiet the merge is that of the current caches, although full channels drop
  // tokens, if every cache was read after its last change; and one that was not had a
  // broadcast that came before its subscriber.
  lemma QuietIsCurrent(s: State)
    requires Reachable(s) && Quiet(s)
    ensures s.unread <= s.missed
    ensures s.unread == {} ==> s.merged == s.caches
    ensures s.unread == {} ==> forall id :: Precedence(s.merged, id) == Precedence(s.caches, id)
  {
    ReachableInv(s);
    forall i | 0 <= i < |s.caches|
      ensures (i in s.unread ==> i in s.missed) && (i !in s.unread ==> s.merged[i] == s.caches[i])
    {
      assert Noticed(s, i);
    }
  }

  // ----- exactly which schedules make the merge current -----

  // What happens is a matter of the schedule: the same actions, whatever the caches hold.
  predicate SameStep(a: Action, b: Action) {
    a == b || (a.Change? && b.Change? && a.i == b.i)
  }

  predicate SameSchedule(run: seq<Action>, other: seq<Action>) {
    |run| == |other| && forall k :: 0 <= k < |run| ==> SameStep(run[k], other[k])
  }

  predicate SameControl(s: State, t: State) {
    && |s.caches| == |t.caches|
    && s.announcing == t.announcing && s.token == t.token && s.watcher == t.watcher
    && s.missed == t.missed && s.unread == t.unread
    && s.rebuild.Some? == t.rebuild.Some?
    && (s.rebuild.Some? ==>
          s.rebuild.value.owner == t.rebuild.value.owner && |s.rebuild.value.read| == |t.rebuild.value.read|)
  }

  lemma {:induction false} ScheduleDecides(s: State, t: State, run: seq<Action>, other: seq<Action>)
    requires Shaped(s) && Shaped(t) && SameControl(s, t) && SameSchedule(run, other) && Exec(s, run).Some?
    ensures Exec(t, other).Some? && SameControl(Exec(s, run).value, Exec(t, other).value)
    decreases |run|
  {
    if run != [] {
      assert SameStep(run[0], other[0]);
      ScheduleDecides(Do(s, run[0]), Do(t, other[0]), run[1..], other[1..]);
    }
  }

  // A cache that differs from two others.
  function Another(a: Cache, b: Cache): (c: Cache)
    ensures c != a && c != b
  {
    var c1 := map["1" := Resolved(Manifest("", ""), "")];
    var c2 := map["2" := Resolved(Manifest("", ""), "")];
    assert "1" in c1 && "1" !in c2 && "2" in c2;
    if map[] != a && map[] != b then map[] else if c1 != a && c1 != b then c1 else c2
  }

  // No cache that changed since it was read is what was read of it.
  predicate AllShow(s: State)
    requires Shaped(s)
  {
    forall i :: i in s.unread && i < |s.caches| ==>
      if s.rebuild.None? then s.merged[i] != s.caches[i]
      else i < |s.rebuild.value.read| ==> s.rebuild.value.read[i] != s.caches[i]
  }

  // The same step, but a change makes the cache what it was not when it was read.
  function Telling(s: State, a: Action): (b: Action)
    requires Shaped(s) && Can(s, a)
    ensures SameStep(a, b)
  {
    if !a.Change? then a
    else Change(a.i, Another(s.merged[a.i],
      if s.rebuild.Some? && a.i < |s.rebuild.value.read| then s.rebuild.value.read[a.i] else s.merged[a.i]))
  }

  lemma TellingShows(s: State, a: Action)
    requires Shaped(s) && Can(s, a) && AllShow(s)
    ensures Can(s, Telling(s, a)) && AllShow(Do(s, Telling(s, a)))
  {
  }

  lemma {:induction false} TellingRun(s: State, run: seq<Action>) returns (other: seq<Action>)
    requires Shaped(s) && AllShow(s) && Exec(s, run).Some?
    ensures SameSchedule(run, other) && Exec(s, other).Some? && AllShow(Exec(s, other).value)
    decreases |run|
  {
    if run == [] {
      other := [];
    } else {
      var b := Telling(s, run[0]);
      TellingShows(s, run[0]);
      var t := Do(s, b);
      ScheduleDecides(Do(s, run[0]), t, run[1..], run[1..]);
      var rest := TellingRun(t, run[1..]);
      other := [b] + rest;
      assert other[1..] == rest;
      forall k | 0 <= k < |run| ensures SameStep(run[k], other[k]) {
        assert k > 0 ==> SameStep(run[1..][k - 1], rest[k - 1]);
      }
    }
  }

  // The merge is current at the end of every run of the schedule, whatever the caches hold.
  ghost predicate AlwaysCurrent(n: nat, run: seq<Action>) {
    forall caches: seq<Cache>, other: seq<Action> :: |caches| == n && SameSchedule(run, other) ==>
      IsCurrent(Exec(Start(caches), other))
  }

  predicate IsCurrent(end: Option<State>) {
    end.Some? && end.value.merged == end.value.caches
  }

  lemma AllReadIsCurrent(caches: seq<Cache>, run: seq<Action>)
    requires Exec(Start(caches), run).Some? && Quiet(Exec(Start(caches), run).value)
    requires Exec(Start(caches), run).value.unread == {}
    ensures AlwaysCurrent(|caches|, run)
  {
    forall caches': seq<Cache>, other: seq<Action> | |caches'| == |caches| && SameSchedule(run, other)
      ensures IsCurrent(Exec(Start(caches'), other))
    {
      ScheduleDecides(Start(caches), Start(caches'), run, other);
      assert Reachable(Exec(Start(caches'), other).value);
      QuietIsCurrent(Exec(Start(caches'), other).value);
    }
  }

  lemma CurrentIsAllRead(caches: seq<Cache>, run: seq<Action>)
    requires Exec(Start(caches), run).Some? && Quiet(Exec(Start(caches), run).value)
    requires AlwaysCurrent(|caches|, run)
    ensures Exec(Start(caches), run).value.unread == {}
  {
    var other := TellingRun(Start(caches), run);
    ScheduleDecides(Start(caches), Start(caches), run, other);
    RunKeeps(Start(caches), other);
    assert IsCurrent(Exec(Start(caches), other));
  }

  // A schedule that ends quiet makes the merge current, whatever the caches hold, if and only
  // if it reads every cache after its last change.
  lemma CurrentIff(caches: seq<Cache>, run: seq<Action>)
    requires Exec(Start(caches), run).Some? && Quiet(Exec(Start(caches), run).value)
    ensures AlwaysCurrent(|caches|, run) <==> Exec(Start(caches), run).value.unread == {}
  {
    if AlwaysCurrent(|caches|, run) {
      CurrentIsAllRead(caches, run);
    } else if Exec(Start(caches), run).value.unread == {} {
      AllReadIsCurrent(caches, run);
    }
  }

  // If no broadcast comes before its subscriber, nothing is ever missed, and so nothing is
  // unread when all is quiet.
  predicate OnTime(s: State, run: seq<Action>)
    requires Shaped(s)
    decreases |run|
  {
    run == [] || !Can(s, run[0]) ||
    (&& (run[0].Announce? ==> !s.watcher[run[0].i].Unsubscribed?)
     && OnTime(Do(s, run[0]), run[1..]))
  }

  lemma {:induction false} OnTimeMissesNothing(s: State, run: seq<Action>)
    requires Shaped(s) && OnTime(s, run) && s.missed == {} && Exec(s, run).Some?
    ensures Exec(s, run).value.missed == {}
    decreases |run|
  {
    if run != [] { OnTimeMissesNothing(Do(s, run[0]), run[1..]); }
  }

  // A source that changes and announces between the first rebuild and the merge's Subscribe
  // (registry.go:90-98) is not shown, and nothing is under way that would show it: it takes
  // another change to start a rebuild.
  lemma EarlyBroadcastIsLost(before: Cache, after: Cache)
    requires before != after
    ensures exists s :: Reachable(s) && Quiet(s) && s.caches == [after] && s.merged == [before] && s.unread == {0}
  {
    var s0 := Start([before]);
    var s1 := Do(s0, Change(0, after));
    var s2 := Do(s1, Announce(0));
    var s3 := Do(s2, Subscribe(0));
    var run := [Change(0, after), Announce(0), Subscribe(0)];
    assert run[1..] == [Announce(0), Subscribe(0)] && run[1..][1..] == [Subscribe(0)] && [Subscribe(0)][1..] == [];
    assert Exec(s2, [Subscribe(0)]) == Some(s3);
    assert Exec(s1, run[1..]) == Some(s3);
    assert Exec(s0, run) == Some(s3);
  }

  // ----- without further changes, all becomes quiet -----

  // The steps that what is under way for one cache can still take.
  function Cost(s: State, i: nat): nat
    requires Shaped(s) && i < |s.caches|
  {
    var n := |s.caches|;
    s.announcing[i] * (n + 4)
    + (if s.token[i] then n + 3 else 0)
    + (match s.watcher[i]
       case Woken => n + 2
       case Unsubscribed => 1
       case _ => 0)
  }

  function CostUpTo(s: State, k: nat): nat
    requires Shaped(s) && k <= |s.caches|
  {
    if k == 0 then 0 else CostUpTo(s, k - 1) + Cost(s, k - 1)
  }

  function Steps(s: State): nat
    requires Inv(s)
  {
    CostUpTo(s, |s.caches|) + if s.rebuild.Some? then |s.caches| - |s.rebuild.value.read| + 1 else 0
  }

  lemma {:induction false} OneCostChanges(s: State, t: State, i: nat, k: nat)
    requires Shaped(s) && Shaped(t) && |t.caches| == |s.caches| && k <= |s.caches|
    requires forall j :: 0 <= j < k && j != i ==> Cost(t, j) == Cost(s, j)
    ensures CostUpTo(t, k) - CostUpTo(s, k) == if i < k then Cost(t, i) - Cost(s, i) else 0
  {
    if k > 0 { OneCostChanges(s, t, i, k - 1); }
  }

  lemma EveryStepCounts(s: State, a: Action)
    requires Inv(s) && Can(s, a) && !a.Change?
    ensures Inv(Do(s, a)) && Steps(Do(s, a)) < Steps(s)
  {
    StepKeeps(s, a);
    var t, n := Do(s, a), |s.caches|;
    var i := if a.Read? then n else if a.Commit? then s.rebuild.value.owner else a.i;
    if a.Announce? {
      assert s.announcing[i] * (n + 4) == (s.announcing[i] - 1) * (n + 4) + (n + 4);
    }
    OneCostChanges(s, t, i, n);
  }

  // Whatever order the steps come in, at most Steps(s) of them can be taken without a change.
  lemma {:induction false} NoRunIsLonger(s: State, run: seq<Action>)
    requires Inv(s) && Exec(s, run).Some?
    requires forall i :: 0 <= i < |run| ==> !run[i].Change?
    ensures |run| <= Steps(s)
    decreases |run|
  {
    if run != [] {
      EveryStepCounts(s, run[0]);
      NoRunIsLonger(Do(s, run[0]), run[1..]);
    }
  }

  // And as long as it is not quiet there is a step to take; so every run without changes that
  // cannot go on has become quiet.
  lemma StuckIsQuiet(s: State)
    requires Inv(s)
    ensures Quiet(s) <==> forall a :: Can(s, a) ==> a.Change?
  {
    if !Quiet(s) {
      if s.rebuild.Some? {
        assert Can(s, Read) || Can(s, Commit);
      } else {
        var i :| 0 <= i < |s.caches| && (s.announcing[i] != 0 || s.token[i] || !s.watcher[i].Idle?);
        assert Can(s, Announce(i)) || Can(s, Subscribe(i)) || Can(s, Receive(i)) || Can(s, Begin(i));
      }
    }
  }
}

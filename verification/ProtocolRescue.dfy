/**
 The other half of ProtocolWaiting: a browser that waits at an empty queue and is within reach
 can still be written a response.
 */
module ProtocolRescue {
  import opened Wrappers
  import opened Envelopes
  import opened Protocol
  import opened ProtocolInvariant
  import opened ProtocolDelivery
  import opened ProtocolProgress
  import opened ProtocolFrame
  import opened ProtocolStuck
  import opened ProtocolBound
  import opened ProtocolReuse
  import opened ProtocolWaiting

  // The run ends with another response written to the browser.
  ghost predicate Answers(s: State, w: WaiterId, run: seq<Action>) {
    && w < |s.table| && Exec(s, run).Some? && w < |Exec(s, run).value.table|
    && |Exec(s, run).value.table[w].written| > |s.table[w].written|
  }

  lemma AnswersAfter(s: State, a: Action, w: WaiterId, run: seq<Action>)
    requires Can(s, a) && w < |s.table| && w < |Do(s, a).table|
    requires Do(s, a).table[w].written == s.table[w].written && Answers(Do(s, a), w, run)
    ensures Answers(s, w, [a] + run)
  {
    assert ([a] + run)[1..] == run;
    hide Can, Do;
  }

  // ----- an event is on the queue -----

  lemma ReadsOn(s: State, w: WaiterId) returns (run: seq<Action>)
    requires w < |s.table| && s.table[w].consumer.Receiving? && s.table[w].taken < |s.table[w].sent|
    ensures Answers(s, w, run)
  {
    run := [Receive(w), Respond(w, true)];
    var t := DoReceive(s, w);
    var u := DoRespond(t, w, true);
    assert run[1..] == [Respond(w, true)] && [Respond(w, true)][1..] == [];
    assert Exec(u, []) == Some(u);
    assert Exec(t, [Respond(w, true)]) == Some(u);
  }

  // ----- somebody is delivering -----

  // The step puts one event on the queue of a waiting browser.
  lemma QueuedIsAnswered(s: State, c: Conn, a: Action, w: WaiterId) returns (run: seq<Action>)
    requires Waiting(s, w) && Can(s, a) && (a == Push(c) || a == FailPush(c)) && s.readers[c].pc.w == w
    ensures Answers(s, w, run)
  {
    ReadingStays(s, a, w);
    QueuedIsThere(s, c, a, w);
    hide Can, Do;
    var rest := ReadsOn(Do(s, a), w);
    run := [a] + rest;
    AnswersAfter(s, a, w, rest);
  }

  lemma QueuedIsThere(s: State, c: Conn, a: Action, w: WaiterId)
    requires Can(s, a) && w < |s.table| && (a == Push(c) || a == FailPush(c)) && s.readers[c].pc.w == w
    ensures w < |Do(s, a).table| && |Do(s, a).table[w].sent| == |s.table[w].sent| + 1
  {
  }

  lemma SelectingAnswers(s: State, w: WaiterId, c: Conn) returns (run: seq<Action>)
    requires Waiting(s, w) && c in s.readers && (s.readers[c].pc.Selecting? || s.readers[c].pc.FailSelecting?)
    requires s.readers[c].pc.w == w
    ensures Answers(s, w, run)
  {
    run := QueuedIsAnswered(s, c, if s.readers[c].pc.Selecting? then Push(c) else FailPush(c), w);
  }

  // A sweep that has written its error to a waiter has written it to be read.
  lemma ClosingIsNotWaitedFor(s: State, w: WaiterId, c: Conn)
    requires Inv(s) && Waiting(s, w) && c in s.readers && s.readers[c].pc.FailClosing?
    ensures s.readers[c].pc.w != w
  {
    ReaderFacts(s, c);
    if s.readers[c].pc.w == w {
      WaiterFacts(s, w);
      LastIsRead(s.table[w]);
    }
    hide Inv;
  }

  lemma LastIsRead(x: Waiter)
    requires ConsumerOk(x) && x.consumer.Receiving? && x.taken == |x.sent|
    ensures forall i :: 0 <= i < |x.sent| ==> !IsTerminal(x.sent[i].event)
  {
    assert x.written == Events(x.sent);
    assert forall i :: 0 <= i < |x.sent| ==> x.written[i] == x.sent[i].event;
  }

  lemma AttendedIsAnswered(s: State, w: WaiterId) returns (run: seq<Action>)
    requires Inv(s) && Waiting(s, w) && !NobodyAt(s, w)
    ensures Answers(s, w, run)
  {
    var c :| IsAt(s, c, w);
    ReaderFacts(s, c);
    var pc := s.readers[c].pc;
    hide Answers;
    if pc.FailClosing? { ClosingIsNotWaitedFor(s, w, c); }
    if pc.Selecting? || pc.FailSelecting? {
      run := SelectingAnswers(s, w, c);
    } else if s.table[w].holder.None? {
      var a := LockWaiter(c);
      ReadingStays(s, a, w);
      LockedSelects(s, c);
      hide Can, Do;
      var rest := SelectingAnswers(Do(s, a), w, c);
      run := [a] + rest;
      AnswersAfter(s, a, w, rest);
    } else {
      var d := s.table[w].holder.value;
      HolderIsAt(s, w, d);
      if s.readers[d].pc.FailClosing? { ClosingIsNotWaitedFor(s, w, d); }
      run := SelectingAnswers(s, w, d);
    }
  }

  lemma LockedSelects(s: State, c: Conn)
    requires CanLockWaiter(s, c)
    ensures var t := DoLockWaiter(s, c);
      && c in t.readers && (t.readers[c].pc.Selecting? || t.readers[c].pc.FailSelecting?)
      && t.readers[c].pc.w == s.readers[c].pc.w
      && |t.table| == |s.table| && t.table[s.readers[c].pc.w].sent == s.table[s.readers[c].pc.w].sent
  {
  }

  lemma HolderIsAt(s: State, w: WaiterId, d: Conn)
    requires Inv(s) && w < |s.table| && s.table[w].holder == Some(d)
    ensures d in s.readers && HoldsWaiter(s.readers[d].pc, w)
  {
    WaiterFacts(s, w);
  }

  // ----- the lock is free: a new connection sweeps the agent -----

  ghost function FreshConn(readers: map<Conn, Reader>): (c: Conn)
    ensures c !in readers
  {
    NotAllConns(readers.Keys);
    var c: Conn :| c !in readers; c
  }

  lemma NotAllConns(cs: set<Conn>)
    ensures exists c: Conn :: c !in cs
  {
    var bound := Bound(cs);
    assert bound !in cs;
  }

  ghost function Bound(cs: set<Conn>): (b: nat)
    ensures forall c :: c in cs ==> c < b
  {
    if cs == {} then 0
    else
      var c :| c in cs;
      var b := Bound(cs - {c});
      assert forall x :: x in cs ==> x == c || x in cs - {c};
      if c < b then b else c + 1
  }

  lemma SweptIsAnswered(s: State, w: WaiterId, c: Conn) returns (run: seq<Action>)
    requires Inv(s) && Waiting(s, w) && s.table[w].fate.Live?
    requires c in s.readers && s.readers[c].pc.Sweeping? && s.readers[c].agentId == s.table[w].key.agentId
    ensures Answers(s, w, run)
  {
    InMapIsLive(s, w);
    var key := s.table[w].key;
    var a := SweepOne(c, key);
    StepKeeps(s, a);
    SweepTakes(s, c, key);
    ReadingStays(s, a, w);
    SweepLeavesQueue(s, c, key, w);
    assert IsAt(Do(s, a), c, w);
    hide Can, Do, Answers, Inv;
    var rest := AttendedIsAnswered(Do(s, a), w);
    run := [a] + rest;
    AnswersAfter(s, a, w, rest);
  }

  lemma SweepLeavesQueue(s: State, c: Conn, key: Key, w: WaiterId)
    requires CanSweepOne(s, c, key) && w < |s.table|
    ensures w < |DoSweepOne(s, c, key).table| && DoSweepOne(s, c, key).table[w].sent == s.table[w].sent
  {
  }

  lemma ReplacementAnswers(s: State, w: WaiterId) returns (run: seq<Action>)
    requires Inv(s) && Waiting(s, w) && s.table[w].fate.Live? && s.lock.None?
    ensures Answers(s, w, run)
  {
    var c := FreshConn(s.readers);
    var agentId := s.table[w].key.agentId;
    InMapIsLive(s, w);
    MapEntry(s, s.table[w].key);
    var a := Connect(c, agentId);
    var t := DoConnect(s, c, agentId);
    StepKeeps(s, a);
    var b := Register(c);
    var u := DoRegister(t, c);
    StepKeeps(t, b);
    Replaces(s, c, agentId);
    hide Answers, Inv, DoConnect, DoRegister;
    var rest := SweptIsAnswered(u, w, c);
    AnswersAfter(t, b, w, rest);
    AnswersAfter(s, a, w, [b] + rest);
    run := [a] + ([b] + rest);
  }

  lemma Replaces(s: State, c: Conn, agentId: string)
    requires CanConnect(s, c) && s.lock.None? && agentId in s.runtimes && s.runtimes[agentId] != c
    ensures var t := DoConnect(s, c, agentId);
      && CanRegister(t, c) && t.table == s.table
      && var u := DoRegister(t, c);
         c in u.readers && u.readers[c] == Reader(agentId, Sweeping(true)) && u.table == s.table
  {
  }

  // ----- the lock is held by a sweep that can end -----

  // The browser is waiting, and somebody is delivering to it or may come to.
  ghost predicate WithinReach(s: State, w: WaiterId) {
    && Inv(s) && Waiting(s, w)
    && (NobodyAt(s, w) ==> s.table[w].fate.Live? && !Doomed(s, s.table[w].key.agentId))
  }

  // A step towards the end of the sweep that leaves the waiting browser where it is.
  ghost predicate Helps(s: State, a: Action, w: WaiterId) {
    && Can(s, a) && Internal(a) && WithinReach(Do(s, a), w)
    && w < |s.table| && Do(s, a).table[w].written == s.table[w].written
  }

  // The step is not one of the waiting browser, nor at its waiter.
  lemma WaitingIsKept(s: State, a: Action, w: WaiterId)
    requires Inv(s) && Waiting(s, w) && s.table[w].fate.Live? && NobodyAt(s, w) && s.lock.Some? && Can(s, a)
    requires a.SweepOne? ==> s.waiters[a.key] != w
    ensures Inv(Do(s, a)) && Waiting(Do(s, a), w) && NobodyAt(Do(s, a), w) && Do(s, a).table[w].fate.Live?
    ensures SameName(s.table[w], Do(s, a).table[w]) && Do(s, a).table[w].written == s.table[w].written
  {
    StepKeeps(s, a);
    WaitingBrowserDoesNothing(s, a, w);
    ReadingStays(s, a, w);
    NobodyActsAt(s, a, w);
    QueueStays(s, a, w);
    NameStays(s, a, w);
    NobodyComesLocked(s, a, w);
    SparedStaysLive(s, a, w);
    hide Can, Do, Inv, NobodyAt;
  }

  // Nothing that the sweep may come to begins to block it.
  predicate NoNewBlocks(s: State, t: State, agentId: string) {
    && (forall key :: key in t.waiters ==> key in s.waiters && t.waiters[key] == s.waiters[key])
    && (forall key :: key in t.waiters && key.agentId == agentId && Blocks(t, t.waiters[key]) ==>
          Blocks(s, s.waiters[key]))
  }

  lemma StillNotDoomed(s: State, t: State, agentId: string)
    requires s.lock.Some? && s.lock.value in s.readers && !Doomed(s, agentId)
    requires t.lock == s.lock && s.lock.value in t.readers
    requires t.readers[s.lock.value].agentId == s.readers[s.lock.value].agentId
    requires NoNewBlocks(s, t, s.readers[s.lock.value].agentId)
    requires Waits(t.readers[s.lock.value].pc) ==> !Blocks(t, t.readers[s.lock.value].pc.w)
    ensures !Doomed(t, agentId)
  {
    hide Blocks;
  }

  // Steps at a waiter that the sweep has taken out.
  lemma NoNewBlocksElsewhere(s: State, a: Action, v: WaiterId, agentId: string)
    requires Inv(s) && s.lock.Some? && Can(s, a) && Internal(a) && v < |s.table| && !s.table[v].fate.Live?
    requires Do(s, a).lock == s.lock && !a.SweepOne?
    requires forall u :: u != v ==> FromElsewhere(s, a, u) && ActorOf(a) != Some(Browser(u))
    ensures NoNewBlocks(s, Do(s, a), agentId)
  {
    var t := Do(s, a);
    OnlyLess(s, a);
    hide Can, Do, Blocks, FromElsewhere;
    forall key | key in t.waiters && key.agentId == agentId && Blocks(t, t.waiters[key]) ensures Blocks(s, s.waiters[key]) {
      var u := s.waiters[key];
      MapEntry(s, key);
      BlocksAsBefore(s, a, u);
    }
  }

  lemma BlocksAsBefore(s: State, a: Action, u: WaiterId)
    requires Can(s, a) && u < |s.table| && FromElsewhere(s, a, u) && ActorOf(a) != Some(Browser(u))
    requires Do(s, a).lock == s.lock
    ensures Blocks(Do(s, a), u) <==> Blocks(s, u)
  {
    ReadingStays(s, a, u);
    QueueStays(s, a, u);
    hide Can, Do;
  }

  // While the lock is held, nothing is added to the map.
  lemma OnlyLess(s: State, a: Action)
    requires Can(s, a) && s.lock.Some?
    ensures forall key :: key in Do(s, a).waiters ==> key in s.waiters && Do(s, a).waiters[key] == s.waiters[key]
  {
  }

  // ----- the sweep is between two waiters -----

  lemma SweepingHelps(s: State, w: WaiterId) returns (a: Action)
    requires WithinReach(s, w) && NobodyAt(s, w) && s.lock.Some?
    requires s.lock.value in s.readers && s.readers[s.lock.value].pc.Sweeping?
    requires s.readers[s.lock.value].agentId != s.table[w].key.agentId
    ensures Helps(s, a, w)
  {
    var c := s.lock.value;
    var agentId := s.readers[c].agentId;
    InMapIsLive(s, w);
    if key :| key in s.waiters && key.agentId == agentId {
      a := SweepOne(c, key);
      MapEntry(s, key);
      WaitingIsKept(s, a, w);
      TakenIsNotDoomed(s, c, key, s.table[w].key.agentId);
    } else {
      a := SweepEnd(c);
      WaitingIsKept(s, a, w);
    }
    hide Inv, NobodyAt, Waiting;
  }

  lemma TakenIsNotDoomed(s: State, c: Conn, key: Key, agentId: string)
    requires Inv(s) && s.lock == Some(c) && CanSweepOne(s, c, key) && !Doomed(s, agentId)
    requires s.readers[c].agentId != agentId
    ensures !Doomed(DoSweepOne(s, c, key), agentId)
  {
    hide Inv;
  }

  // ----- the sweep is at a waiter -----

  // The waiter that the sweep is at.
  predicate SweepAt(s: State, v: WaiterId) {
    && s.lock.Some? && s.lock.value in s.readers && v < |s.table|
    && var pc := s.readers[s.lock.value].pc;
       (Waits(pc) || pc.FailClosing?) && pc.w == v
  }

  // A step at that waiter after which it does not block the sweep.
  ghost predicate Unblocks(s: State, a: Action, v: WaiterId) {
    && Can(s, a) && Internal(a) && !a.SweepOne? && !a.SweepEnd?
    && (forall u :: u != v ==> FromElsewhere(s, a, u) && ActorOf(a) != Some(Browser(u)))
    && s.lock.Some? && s.lock.value in Do(s, a).readers
    && (Waits(Do(s, a).readers[s.lock.value].pc) ==> !Blocks(Do(s, a), Do(s, a).readers[s.lock.value].pc.w))
  }

  lemma UnblockingHelps(s: State, w: WaiterId, v: WaiterId, a: Action)
    requires WithinReach(s, w) && NobodyAt(s, w) && SweepAt(s, v) && Unblocks(s, a, v)
    ensures Helps(s, a, w)
  {
    var agentId := s.readers[s.lock.value].agentId;
    ReaderFacts(s, s.lock.value);
    WaitingIsKept(s, a, w);
    LockIsKept(s, a);
    NoNewBlocksElsewhere(s, a, v, agentId);
    StillNotDoomed(s, Do(s, a), s.table[w].key.agentId);
    hide Can, Do, Inv, NobodyAt, Waiting, Blocks, Doomed, NoNewBlocks;
  }

  lemma FailClosingUnblocks(s: State, v: WaiterId)
    requires Inv(s) && SweepAt(s, v) && s.readers[s.lock.value].pc.FailClosing?
    ensures Unblocks(s, FailClose(s.lock.value), v)
  {
    hide Inv;
  }

  lemma FailPushUnblocks(s: State, v: WaiterId)
    requires Inv(s) && SweepAt(s, v) && s.readers[s.lock.value].pc.FailSelecting? && !Full(s.table[v])
    ensures Unblocks(s, FailPush(s.lock.value), v)
  {
    hide Inv;
  }

  lemma LockUnblocks(s: State, v: WaiterId)
    requires Inv(s) && SweepAt(s, v) && s.readers[s.lock.value].pc.FailLocking? && s.table[v].holder.None?
    requires !Blocks(s, v)
    ensures Unblocks(s, LockWaiter(s.lock.value), v)
  {
    hide Inv;
  }

  lemma PushUnblocks(s: State, v: WaiterId, d: Conn)
    requires Inv(s) && SweepAt(s, v) && s.readers[s.lock.value].pc.FailLocking?
    requires s.table[v].holder == Some(d) && !Full(s.table[v]) && !Blocks(s, v)
    ensures Unblocks(s, Push(d), v)
  {
    HolderDelivers(s, s.lock.value, d);
    hide Inv;
  }

  lemma ReadingUnblocks(s: State, v: WaiterId) returns (a: Action)
    requires Inv(s) && SweepAt(s, v) && Waits(s.readers[s.lock.value].pc) && Full(s.table[v]) && !Blocks(s, v)
    ensures Unblocks(s, a, v)
  {
    var x := s.table[v];
    FullBrowserReads(s, v);
    a := if x.consumer.Sending? then WriteTask(v, true) else if x.consumer.Receiving? then Receive(v) else Respond(v, true);
    StepKeeps(s, a);
    BrowserKeepsReaders(s, a);
    AfterReading(s, v, a);
    hide Inv;
  }

  lemma BrowserKeepsReaders(s: State, a: Action)
    requires Can(s, a) && (a.WriteTask? || a.Receive? || a.Respond?)
    ensures Do(s, a).readers == s.readers
  {
  }

  lemma FullBrowserReads(s: State, v: WaiterId)
    requires Inv(s) && SweepAt(s, v) && Waits(s.readers[s.lock.value].pc) && Full(s.table[v]) && !Blocks(s, v)
    ensures StillReading(s.table[v]) && s.table[v].taken < |s.table[v].sent|
  {
    ReaderFacts(s, s.lock.value);
    WaiterFacts(s, v);
    PlaceFacts(s.table[v], ContextOf(s, v));
    hide Inv, LocalOk, LinksOk;
  }

  // It reads on, or has come to its final event with room to spare.
  lemma AfterReading(s: State, v: WaiterId, a: Action)
    requires Inv(s) && Can(s, a) && Inv(Do(s, a)) && v < |s.table| && StillReading(s.table[v])
    requires a == WriteTask(v, true) || a == Receive(v) || a == Respond(v, true)
    ensures !Blocks(Do(s, a), v)
  {
    WaiterFacts(s, v);
    var t := Do(s, a);
    hide Inv, LinksOk, PlaceOk, StreamOk, SweepOk, ContextOf;
    ReadsWithoutQuitting(s, v, a);
    if !StillReading(t.table[v]) { LittleAfterTheEnd(t, v); }
  }

  lemma ReadsWithoutQuitting(s: State, v: WaiterId, a: Action)
    requires v < |s.table| && StillReading(s.table[v]) && !s.table[v].quit && Can(s, a)
    requires a == WriteTask(v, true) || a == Receive(v) || a == Respond(v, true)
    ensures v < |Do(s, a).table| && !Do(s, a).table[v].quit
  {
  }

  lemma SweepAtHelps(s: State, w: WaiterId, v: WaiterId) returns (a: Action)
    requires WithinReach(s, w) && NobodyAt(s, w) && SweepAt(s, v)
    ensures Helps(s, a, w)
  {
    var c := s.lock.value;
    var pc := s.readers[c].pc;
    hide Unblocks, Helps;
    assert IsAt(s, c, v);
    if pc.FailClosing? {
      a := FailClose(c);
      FailClosingUnblocks(s, v);
    } else if Full(s.table[v]) {
      a := ReadingUnblocks(s, v);
    } else if pc.FailSelecting? {
      a := FailPush(c);
      FailPushUnblocks(s, v);
    } else if s.table[v].holder.None? {
      a := LockWaiter(c);
      LockUnblocks(s, v);
    } else {
      a := Push(s.table[v].holder.value);
      PushUnblocks(s, v, s.table[v].holder.value);
    }
    UnblockingHelps(s, w, v, a);
  }

  // ----- put together -----

  lemma ReachedIsAnswered(s: State, w: WaiterId) returns (run: seq<Action>)
    requires WithinReach(s, w)
    ensures Answers(s, w, run)
    decreases Steps(s)
  {
    hide Answers, Steps, NobodyAt, Doomed;
    if !NobodyAt(s, w) {
      run := AttendedIsAnswered(s, w);
    } else if s.lock.None? {
      run := ReplacementAnswers(s, w);
    } else {
      LockerIsKnown(s);
      var c := s.lock.value;
      var pc := s.readers[c].pc;
      if pc.Sweeping? && s.readers[c].agentId == s.table[w].key.agentId {
        run := SweptIsAnswered(s, w, c);
      } else {
        var a;
        if pc.Sweeping? { a := SweepingHelps(s, w); } else { a := SweepAtHelps(s, w, pc.w); }
        EveryStepCounts(s, a);
        var rest := ReachedIsAnswered(Do(s, a), w);
        run := [a] + rest;
        AnswersAfter(s, a, w, rest);
      }
    }
  }

  // In every reachable state, a browser that waits at an empty queue will never be written
  // another response, whatever happens, if and only if nobody is delivering to it, and it is
  // out of the map or a sweep that cannot end keeps others from it.
  lemma OutOfReachIff(s: State, w: WaiterId)
    requires Reachable(s) && Waiting(s, w)
    ensures (forall run :: Exec(s, run).Some? ==> !Answers(s, w, run)) <==> OutOfReach(s, w)
  {
    ReachableInv(s);
    if OutOfReach(s, w) {
      forall run | Exec(s, run).Some? ensures !Answers(s, w, run) { OutOfReachForEver(s, w, run); }
    } else {
      var run := ReachedIsAnswered(s, w);
      assert Exec(s, run).Some? && Answers(s, w, run);
    }
    hide Inv, Reachable, NobodyAt, Doomed;
  }

  // While the registry's lock is free: if and only if it is left waiting.
  lemma LeftWaitingIff(s: State, w: WaiterId)
    requires Reachable(s) && Waiting(s, w) && s.lock.None?
    ensures (forall run :: Exec(s, run).Some? ==> !Answers(s, w, run)) <==> LeftWaiting(s, w)
  {
    OutOfReachIff(s, w);
  }
}

/**
 The other half of ProtocolReuse: whoever can take a new chat's waiter out of the map can leave
 its browser waiting for ever. Together: exactly when using a message id again can leave a
 browser of it waiting, the new one or an earlier one.
 */
module ProtocolStranding {
  import opened Wrappers
  import opened Envelopes
  import opened Protocol
  import opened ProtocolInvariant
  import opened ProtocolDelivery
  import opened ProtocolProgress
  import opened ProtocolFrame
  import opened ProtocolReuse
  import opened ProtocolJam

  // ----- a meddler can leave the new chat waiting -----

  // The new chat is waiting for its first event, and is in the map.
  ghost predicate Expecting(s: State, w: WaiterId) {
    Inv(s) && s.lock.None? && w < |s.table| &&
    var x := s.table[w];
    && x.consumer.Receiving? && x.sent == [] && x.taken == 0 && !x.done && NobodyAt(s, w)
    && x.key in s.waiters && s.waiters[x.key] == w
  }

  // A run without any further task ends with the chat displaced and left waiting.
  ghost predicate Leaves(s: State, w: WaiterId, run: seq<Action>) {
    && (forall i :: 0 <= i < |run| ==> !run[i].SendTask?)
    && Exec(s, run).Some?
    && LeftWaiting(Exec(s, run).value, w) && Displaced(Exec(s, run).value, w)
  }

  lemma LeavesAfter(s: State, a: Action, w: WaiterId, run: seq<Action>)
    requires Can(s, a) && !a.SendTask? && Leaves(Do(s, a), w, run)
    ensures Leaves(s, w, [a] + run)
  {
    assert ([a] + run)[1..] == run;
    hide Can, Do, LeftWaiting;
  }

  lemma LeavesAtOnce(s: State, a: Action, b: Action, w: WaiterId)
    requires Can(s, a) && Can(Do(s, a), b) && !a.SendTask? && !b.SendTask?
    requires LeftWaiting(Do(Do(s, a), b), w) && Displaced(Do(Do(s, a), b), w)
    ensures Leaves(s, w, [a, b])
  {
    hide Can, Do, LeftWaiting;
    assert Exec(Do(Do(s, a), b), []) == Some(Do(Do(s, a), b));
    assert [a, b][1..] == [b] && [b][1..] == [];
    assert Exec(Do(s, a), [b]) == Some(Do(Do(s, a), b));
  }

  // Steps before the removal.
  predicate Prepares(a: Action) {
    a.WriteTask? || a.Receive? || a.Respond? || a.LockWaiter? || a.Push?
  }

  lemma StillExpecting(s: State, a: Action, w: WaiterId)
    requires Expecting(s, w) && Can(s, a) && Prepares(a) && ActorOf(a) != Some(Browser(w))
    ensures Expecting(Do(s, a), w) && SameName(s.table[w], Do(s, a).table[w])
  {
    StepKeeps(s, a);
    NobodyActsAt(s, a, w);
    QueueStays(s, a, w);
    ReadingStays(s, a, w);
    NameStays(s, a, w);
    PreparingKeeps(s, a, w);
    hide Can, Do, Inv;
  }

  lemma PreparingKeeps(s: State, a: Action, w: WaiterId)
    requires Can(s, a) && Prepares(a) && NobodyAt(s, w) && w < |s.table|
    ensures Do(s, a).lock == s.lock && Do(s, a).waiters == s.waiters && NobodyAt(Do(s, a), w)
    ensures w < |Do(s, a).table| && Do(s, a).table[w].done == s.table[w].done
  {
    forall c ensures !IsAt(Do(s, a), c, w) {
      assert !IsAt(s, c, w);
    }
  }

  // ----- by a browser -----

  lemma LeavingStrands(s: State, w: WaiterId, v: WaiterId) returns (run: seq<Action>)
    requires Expecting(s, w) && v < |s.table| && v != w && s.table[v].key == s.table[w].key
    requires s.table[v].consumer.Leaving?
    ensures Leaves(s, w, run)
  {
    run := [Leave(v), LeaveClose(v)];
    LeaveRemoves(s, w, v);
    var t := Do(s, Leave(v));
    CloseStrands(t, w, v);
    LeavesAtOnce(s, Leave(v), LeaveClose(v), w);
    hide Expecting;
  }

  ghost predicate RemovedBy(s: State, w: WaiterId, v: WaiterId) {
    w < |s.table| && v != w &&
    var x := s.table[w];
    && x.fate == Removed(v) && x.consumer.Receiving? && x.sent == [] && x.taken == 0 && NobodyAt(s, w)
  }

  lemma LeaveRemoves(s: State, w: WaiterId, v: WaiterId)
    requires Expecting(s, w) && v < |s.table| && v != w && s.table[v].key == s.table[w].key
    requires s.table[v].consumer.Leaving?
    ensures Can(s, Leave(v))
    ensures RemovedBy(Do(s, Leave(v)), w, v) && ClosesNext(Do(s, Leave(v)), Browser(v), w)
  {
    hide Inv;
    var t := DoLeave(s, v);
    forall c ensures !IsAt(t, c, w) { assert !IsAt(s, c, w); }
  }

  lemma CloseStrands(s: State, w: WaiterId, v: WaiterId)
    requires RemovedBy(s, w, v) && ClosesNext(s, Browser(v), w)
    ensures Can(s, LeaveClose(v))
    ensures LeftWaiting(Do(s, LeaveClose(v)), w) && Displaced(Do(s, LeaveClose(v)), w)
  {
    var t := DoLeaveClose(s, v);
    forall c ensures !IsAt(t, c, w) { assert !IsAt(s, c, w); }
  }

  lemma FailingWriteStrands(s: State, w: WaiterId, v: WaiterId) returns (run: seq<Action>)
    requires Expecting(s, w) && v < |s.table| && v != w && s.table[v].key == s.table[w].key
    requires s.table[v].consumer.Sending? || s.table[v].consumer.Writing?
    ensures Leaves(s, w, run)
  {
    var a := if s.table[v].consumer.Sending? then WriteTask(v, false) else Respond(v, false);
    StillExpecting(s, a, w);
    NameStays(s, a, v);
    GivesUpOn(s, a, v);
    hide Can, Do, Expecting, Leaves;
    var rest := LeavingStrands(Do(s, a), w, v);
    run := [a] + rest;
    LeavesAfter(s, a, w, rest);
  }

  lemma GivesUpOn(s: State, a: Action, v: WaiterId)
    requires Can(s, a) && (a == WriteTask(v, false) || a == Respond(v, false))
    ensures v < |Do(s, a).table| && Do(s, a).table[v].consumer.Leaving?
  {
  }

  lemma ReadingStrands(s: State, w: WaiterId, v: WaiterId) returns (run: seq<Action>)
    requires Expecting(s, w) && v < |s.table| && v != w && s.table[v].key == s.table[w].key
    requires s.table[v].consumer.Receiving? && s.table[v].taken < |s.table[v].sent|
    ensures Leaves(s, w, run)
  {
    var a := Receive(v);
    StillExpecting(s, a, w);
    NameStays(s, a, v);
    assert Do(s, a).table[v].consumer.Writing?;
    hide Can, Do, Expecting, Leaves;
    var rest := FailingWriteStrands(Do(s, a), w, v);
    run := [a] + rest;
    LeavesAfter(s, a, w, rest);
  }

  // An event is on its way to a browser that waits at an empty queue.
  lemma DeliveryStrands(s: State, w: WaiterId, v: WaiterId, c: Conn) returns (run: seq<Action>)
    requires Expecting(s, w) && v < |s.table| && v != w && s.table[v].key == s.table[w].key
    requires s.table[v].consumer.Receiving? && s.table[v].taken == |s.table[v].sent|
    requires c in s.readers && s.readers[c].pc.Selecting? && s.readers[c].pc.w == v
    ensures Leaves(s, w, run)
  {
    var a := Push(c);
    StillExpecting(s, a, w);
    NameStays(s, a, v);
    ReadingStays(s, a, v);
    PushedIsThere(s, c);
    hide Can, Do, Expecting, Leaves;
    var rest := ReadingStrands(Do(s, a), w, v);
    run := [a] + rest;
    LeavesAfter(s, a, w, rest);
  }

  lemma PushedIsThere(s: State, c: Conn)
    requires CanPush(s, c)
    ensures var v := s.readers[c].pc.w;
      v < |DoPush(s, c).table| && |DoPush(s, c).table[v].sent| == |s.table[v].sent| + 1
  {
  }

  lemma LockedIsSelecting(s: State, c: Conn)
    requires CanLockWaiter(s, c) && s.readers[c].pc.Locking?
    ensures var t := DoLockWaiter(s, c);
      && c in t.readers && t.readers[c].pc == Selecting(s.readers[c].pc.w, s.readers[c].pc.event)
  {
  }

  lemma BrowserStrands(s: State, w: WaiterId, v: WaiterId) returns (run: seq<Action>)
    requires Expecting(s, w) && Meddles(s, Browser(v), s.table[w].key, w)
    ensures Leaves(s, w, run)
  {
    var x := s.table[v];
    hide Leaves;
    if x.consumer.Leaving? {
      run := LeavingStrands(s, w, v);
    } else if !x.consumer.Receiving? {
      run := FailingWriteStrands(s, w, v);
    } else if x.taken < |x.sent| {
      run := ReadingStrands(s, w, v);
    } else {
      WaiterFacts(s, v);
      var c :| IsAt(s, c, v);
      ReaderFacts(s, c);
      if s.readers[c].pc.Selecting? {
        run := DeliveryStrands(s, w, v, c);
      } else {
        var a := LockWaiter(c);
        WaiterMutexIsFree(s, c);
        StillExpecting(s, a, w);
        NobodyElse(s, c, v);
        NameStays(s, a, v);
        ReadingStays(s, a, v);
        LockedIsSelecting(s, c);
        var rest := DeliveryStrands(Do(s, a), w, v, c);
        run := [a] + rest;
        LeavesAfter(s, a, w, rest);
      }
    }
  }

  lemma NobodyElse(s: State, c: Conn, v: WaiterId)
    requires CanLockWaiter(s, c) && s.readers[c].pc.w == v
    ensures v < |DoLockWaiter(s, c).table| && DoLockWaiter(s, c).table[v].sent == s.table[v].sent
  {
  }

  // ----- by a reader -----

  lemma RetiringStrands(s: State, w: WaiterId, c: Conn) returns (run: seq<Action>)
    requires Expecting(s, w) && c in s.readers && s.readers[c].pc.Retiring?
    requires s.readers[c].pc.w < |s.table| && s.readers[c].pc.w != w
    requires s.table[s.readers[c].pc.w].key == s.table[w].key
    ensures Leaves(s, w, run)
  {
    run := [Retire(c), CloseDone(c)];
    RetireRemoves(s, w, c);
    CloseDoneStrands(Do(s, Retire(c)), w, s.readers[c].pc.w, c);
    LeavesAtOnce(s, Retire(c), CloseDone(c), w);
    hide Expecting;
  }

  lemma RetireRemoves(s: State, w: WaiterId, c: Conn)
    requires Expecting(s, w) && c in s.readers && s.readers[c].pc.Retiring?
    requires s.readers[c].pc.w < |s.table| && s.readers[c].pc.w != w
    requires s.table[s.readers[c].pc.w].key == s.table[w].key
    ensures Can(s, Retire(c))
    ensures RemovedBy(Do(s, Retire(c)), w, s.readers[c].pc.w) && ClosesNext(Do(s, Retire(c)), Runtime(c), w)
  {
    hide Inv;
    var t := DoRetire(s, c);
    forall d ensures !IsAt(t, d, w) { assert !IsAt(s, d, w); }
  }

  lemma CloseDoneStrands(s: State, w: WaiterId, v: WaiterId, c: Conn)
    requires RemovedBy(s, w, v) && ClosesNext(s, Runtime(c), w)
    ensures Can(s, CloseDone(c))
    ensures LeftWaiting(Do(s, CloseDone(c)), w) && Displaced(Do(s, CloseDone(c)), w)
  {
    var t := DoCloseDone(s, c);
    forall d ensures !IsAt(t, d, w) { assert !IsAt(s, d, w); }
  }

  lemma FinalPushStrands(s: State, w: WaiterId, c: Conn) returns (run: seq<Action>)
    requires Expecting(s, w) && Meddles(s, Runtime(c), s.table[w].key, w) && s.readers[c].pc.Selecting?
    ensures Leaves(s, w, run)
  {
    var a, v := Push(c), s.readers[c].pc.w;
    StillExpecting(s, a, w);
    NameStays(s, a, v);
    PushRetires(s, c);
    hide Can, Do, Expecting, Leaves;
    var rest := RetiringStrands(Do(s, a), w, c);
    run := [a] + rest;
    LeavesAfter(s, a, w, rest);
  }

  lemma PushRetires(s: State, c: Conn)
    requires CanPush(s, c) && IsTerminal(s.readers[c].pc.event)
    ensures c in DoPush(s, c).readers && DoPush(s, c).readers[c].pc == Retiring(s.readers[c].pc.w)
  {
  }

  lemma ReaderStrands(s: State, w: WaiterId, c: Conn) returns (run: seq<Action>)
    requires Expecting(s, w) && Meddles(s, Runtime(c), s.table[w].key, w)
    ensures Leaves(s, w, run)
  {
    hide Leaves;
    if s.readers[c].pc.Retiring? {
      run := RetiringStrands(s, w, c);
    } else if s.readers[c].pc.Selecting? {
      run := FinalPushStrands(s, w, c);
    } else {
      var a, v := LockWaiter(c), s.readers[c].pc.w;
      WaiterMutexIsFree(s, c);
      StillExpecting(s, a, w);
      NameStays(s, a, v);
      ReadingStays(s, a, v);
      NobodyElse(s, c, v);
      LockedIsSelecting(s, c);
      hide Can, Do, Expecting;
      var rest := FinalPushStrands(Do(s, a), w, c);
      run := [a] + rest;
      LeavesAfter(s, a, w, rest);
    }
  }

  // ----- exactly when an id may be used again -----

  // What SendTask leaves: the new waiter, and everybody else where they were.
  lemma NewChat(s: State, key: Key)
    requires Inv(s) && s.lock.None? && key.agentId in s.runtimes
    ensures var t, w := DoSendTask(s, key), |s.table|;
      && Inv(t) && t.lock.None? && |t.table| == w + 1 && t.readers == s.readers
      && t.table[w] == NewWaiter(key, s.runtimes[key.agentId], |s.log|)
      && key in t.waiters && t.waiters[key] == w && NobodyAt(t, w)
      && forall v :: 0 <= v < w ==> t.table[v] == s.table[v].(fate := t.table[v].fate)
  {
    StepKeeps(s, SendTask(key));
    forall c ensures !IsAt(DoSendTask(s, key), c, |s.table|) {
      if c in s.readers { ReaderFacts(s, c); }
    }
    hide Inv;
  }

  lemma SameMeddlers(s: State, t: State, key: Key, x: Actor)
    requires |s.table| < |t.table| && t.readers == s.readers
    requires forall v :: 0 <= v < |s.table| ==> t.table[v] == s.table[v].(fate := t.table[v].fate)
    requires forall v :: |s.table| < v < |t.table| ==> t.table[v].key != key
    requires Inv(s)
    ensures Meddles(t, x, key, |s.table|) <==> Meddles(s, x, key, |s.table|)
  {
    match x
    case Runtime(c) =>
      if c in s.readers { ReaderFacts(s, c); }
      hide Inv;
    case Browser(v) =>
      assert v < |s.table| ==> (NobodyAt(t, v) <==> NobodyAt(s, v)) by {
        assert forall c :: IsAt(t, c, v) <==> IsAt(s, c, v);
      }
      hide Inv, NobodyAt;
  }

  lemma UnmeddledAtFirst(s: State, key: Key)
    requires Inv(s) && s.lock.None? && key.agentId in s.runtimes
    requires forall x :: !Meddles(s, x, key, |s.table|)
    ensures Unmeddled(DoSendTask(s, key), |s.table|)
  {
    NewChat(s, key);
    var t := DoSendTask(s, key);
    hide Inv, Meddles, DoSendTask;
    forall x ensures !Meddles(t, x, key, |s.table|) { SameMeddlers(s, t, key, x); }
  }

  // If no goroutine can still call removeWaiter for the id, then whatever happens, the new
  // chat's waiter is not displaced and its browser is not left waiting, unless the id is used
  // yet again.
  lemma SafeReuse(s: State, key: Key, run: seq<Action>)
    requires Reachable(s) && s.lock.None? && key.agentId in s.runtimes
    requires forall x :: !Meddles(s, x, key, |s.table|)
    requires NoMoreTasks(run, key) && Exec(DoSendTask(s, key), run).Some?
    ensures var t, w := Exec(DoSendTask(s, key), run).value, |s.table|;
      w < |t.table| && !Displaced(t, w) && !LeftWaiting(t, w)
  {
    ReachableInv(s);
    NewChat(s, key);
    UnmeddledAtFirst(s, key);
    var t0 := DoSendTask(s, key);
    UnmeddledRun(t0, |s.table|, run);
    var t := Exec(t0, run).value;
    InTable(t, |s.table|);
    StillReachable(s, SendTask(key), run);
    NotLeftWaiting(t, |s.table|);
    hide Inv, Reachable, Unmeddled, Meddles, LeftWaiting;
  }

  lemma StillReachable(s: State, a: Action, run: seq<Action>)
    requires Reachable(s) && Can(s, a) && Exec(Do(s, a), run).Some?
    ensures Reachable(Exec(Do(s, a), run).value)
  {
    var before :| Exec(INITIAL, before) == Some(s);
    hide Can, Do;
    ExecAppend(INITIAL, before, [a] + run);
    assert ([a] + run)[1..] == run;
    assert Exec(s, [a] + run) == Exec(Do(s, a), run);
  }

  lemma UnsafeReuse(s: State, key: Key, x: Actor) returns (run: seq<Action>)
    requires Inv(s) && s.lock.None? && key.agentId in s.runtimes && Meddles(s, x, key, |s.table|)
    ensures Leaves(DoSendTask(s, key), |s.table|, run)
  {
    NewChat(s, key);
    var t, w := DoSendTask(s, key), |s.table|;
    var a := WriteTask(w, true);
    StartsToExpect(t, w);
    SameMeddlers(s, t, key, x);
    var u := Do(t, a);
    MeddlersStay(t, w, key, x);
    hide Can, Do, Leaves, Expecting, Meddles, DoSendTask, Inv;
    var rest;
    if x.Browser? { rest := BrowserStrands(u, w, x.w); } else { rest := ReaderStrands(u, w, x.c); }
    run := [a] + rest;
    LeavesAfter(t, a, w, rest);
  }

  lemma StartsToExpect(t: State, w: WaiterId)
    requires Inv(t) && t.lock.None? && w < |t.table| && NobodyAt(t, w)
    requires t.table[w].consumer.Sending? && t.table[w].sent == [] && t.table[w].taken == 0 && !t.table[w].done
    requires t.table[w].key in t.waiters && t.waiters[t.table[w].key] == w
    ensures Can(t, WriteTask(w, true)) && Expecting(Do(t, WriteTask(w, true)), w)
    ensures w < |Do(t, WriteTask(w, true)).table| && Do(t, WriteTask(w, true)).table[w].key == t.table[w].key
  {
    StepKeeps(t, WriteTask(w, true));
    var u := DoWriteTask(t, w, true);
    forall c ensures !IsAt(u, c, w) { assert !IsAt(t, c, w); }
    hide Inv;
  }

  lemma MeddlersStay(t: State, w: WaiterId, key: Key, x: Actor)
    requires CanWriteTask(t, w) && Meddles(t, x, key, w)
    ensures Meddles(DoWriteTask(t, w, true), x, key, w)
  {
    var u := DoWriteTask(t, w, true);
    if x.Browser? && !NobodyAt(t, x.w) {
      var c :| IsAt(t, c, x.w);
      assert IsAt(u, c, x.w);
    }
  }

  // At the moment a task is sent: its browser can be left waiting for ever, its waiter taken
  // out by another one, without the id being used yet again, if and only if some goroutine can
  // still call removeWaiter for the id.
  lemma ReuseIsUnsafeIff(s: State, key: Key)
    requires Reachable(s) && s.lock.None? && key.agentId in s.runtimes
    ensures (exists x :: Meddles(s, x, key, |s.table|))
      <==> exists run :: NoMoreTasks(run, key) && EndsDisplaced(DoSendTask(s, key), run, |s.table|)
    ensures (exists x :: Meddles(s, x, key, |s.table|))
      <==> exists run :: NoMoreTasks(run, key) && EndsLeftWaiting(DoSendTask(s, key), run, |s.table|)
  {
    ReachableInv(s);
    var t, w := DoSendTask(s, key), |s.table|;
    if x :| Meddles(s, x, key, w) {
      var run := UnsafeReuse(s, key, x);
      assert NoMoreTasks(run, key) && EndsDisplaced(t, run, w) && EndsLeftWaiting(t, run, w);
    } else {
      forall run | NoMoreTasks(run, key) && Exec(t, run).Some?
        ensures !EndsDisplaced(t, run, w) && !EndsLeftWaiting(t, run, w)
      {
        SafeReuse(s, key, run);
      }
    }
    hide Inv, Reachable, Meddles, LeftWaiting, DoSendTask;
  }

  ghost predicate EndsDisplaced(t: State, run: seq<Action>, w: WaiterId) {
    Exec(t, run).Some? && w < |Exec(t, run).value.table| && Displaced(Exec(t, run).value, w)
  }

  ghost predicate EndsLeftWaiting(t: State, run: seq<Action>, w: WaiterId) {
    Exec(t, run).Some? && LeftWaiting(Exec(t, run).value, w)
  }

  // ----- the new browser or an earlier one -----

  // A browser of the id that was not left waiting before is so at the end of the run.
  ghost predicate EndsWithSomebodyLeft(s: State, key: Key, run: seq<Action>) {
    && Exec(DoSendTask(s, key), run).Some?
    && exists v :: NewlyLeft(s, Exec(DoSendTask(s, key), run).value, key, v)
  }

  ghost predicate NewlyLeft(s: State, t: State, key: Key, v: WaiterId) {
    LeftWaiting(t, v) && t.table[v].key == key && !LeftWaiting(s, v)
  }

  // A chat of the id is in progress: it is in the map, and its browser is reading.
  predicate InProgress(s: State, key: Key) {
    key in s.waiters && s.waiters[key] < |s.table| && StillReading(s.table[s.waiters[key]])
  }

  // It loses its place in the map; if its browser is waiting, and nobody is delivering to it,
  // that is for ever.
  lemma InProgressIsLeft(s: State, key: Key)
    requires Inv(s) && s.lock.None? && key.agentId in s.runtimes && InProgress(s, key)
    ensures var v := s.waiters[key];
      NewlyLeft(s, DoSendTask(s, key), key, v) || Meddles(s, Browser(v), key, |s.table|)
  {
    var v := s.waiters[key];
    MapEntry(s, key);
    NewChat(s, key);
    WaiterFacts(s, v);
    var t := DoSendTask(s, key);
    assert NobodyAt(t, v) <==> NobodyAt(s, v) by {
      assert forall c :: IsAt(t, c, v) <==> IsAt(s, c, v);
    }
    assert t.table[v].fate == Overwritten(|s.table|);
    hide Inv, NobodyAt;
  }

  // A browser on its way out, or out.
  predicate Going(s: State, v: WaiterId) {
    v < |s.table| && (s.table[v].consumer.Cancelling? || s.table[v].consumer.Gone?)
  }

  lemma GoingStays(s: State, a: Action, v: WaiterId)
    requires Can(s, a) && Going(s, v)
    ensures Going(Do(s, a), v)
  {
    if ActorOf(a) == Some(Browser(v)) { GoingGoes(s, a, v); } else { ReadingStays(s, a, v); }
    hide Can, Do;
  }

  lemma GoingGoes(s: State, a: Action, v: WaiterId)
    requires Can(s, a) && Going(s, v) && ActorOf(a) == Some(Browser(v))
    ensures Going(Do(s, a), v)
  {
  }

  lemma {:induction false} GoingForEver(s: State, v: WaiterId, run: seq<Action>)
    requires Going(s, v) && Exec(s, run).Some?
    ensures Going(Exec(s, run).value, v)
    decreases |run|
  {
    hide Going;
    if run != [] {
      GoingStays(s, run[0], v);
      GoingForEver(Do(s, run[0]), v, run[1..]);
    }
  }

  // Waiters that the run adds have other ids.
  lemma {:induction false} NoMoreOfKey(s: State, key: Key, run: seq<Action>, v: WaiterId)
    requires NoMoreTasks(run, key) && Exec(s, run).Some?
    requires v < |Exec(s, run).value.table| && Exec(s, run).value.table[v].key == key
    ensures v < |s.table| && s.table[v].key == key
    decreases |run|
  {
    if run != [] {
      assert NoMoreTasks(run[1..], key);
      assert run[0] != SendTask(key);
      NoMoreOfKey(Do(s, run[0]), key, run[1..], v);
      if v < |s.table| { NameStays(s, run[0], v); } else { NewWaiterHasItsKey(s, run[0], v); }
    }
    hide Can, Do;
  }

  // With nobody in progress and no meddler, an earlier browser has gone, is going, or was left
  // waiting before.
  lemma EarlierOnesAreOut(s: State, key: Key, v: WaiterId)
    requires Inv(s) && v < |s.table| && s.table[v].key == key && !InProgress(s, key)
    requires !Meddles(s, Browser(v), key, |s.table|)
    ensures Going(s, v) || LeftWaiting(s, v)
  {
    InMapIsLive(s, v);
    WaiterFacts(s, v);
    hide Inv, NobodyAt;
  }

  lemma NobodyIsLeft(s: State, key: Key, run: seq<Action>, v: WaiterId)
    requires Reachable(s) && s.lock.None? && key.agentId in s.runtimes && !InProgress(s, key)
    requires forall x :: !Meddles(s, x, key, |s.table|)
    requires NoMoreTasks(run, key) && Exec(DoSendTask(s, key), run).Some?
    ensures !NewlyLeft(s, Exec(DoSendTask(s, key), run).value, key, v)
  {
    var t := DoSendTask(s, key);
    var u := Exec(t, run).value;
    ReachableInv(s);
    NewChat(s, key);
    if NewlyLeft(s, u, key, v) {
      NoMoreOfKey(t, key, run, v);
      if v == |s.table| {
        SafeReuse(s, key, run);
      } else {
        EarlierOnesAreOut(s, key, v);
        assert Going(t, v);
        GoingForEver(t, v, run);
      }
    }
    hide Inv, Reachable, Meddles, DoSendTask;
  }

  // At the moment a task is sent: some browser of the id, the new one or an earlier one, can be
  // left waiting for ever, without the id being used yet again, if and only if a chat of the id
  // is in progress or some goroutine can still call removeWaiter for it.
  lemma ReuseStrandsIff(s: State, key: Key)
    requires Reachable(s) && s.lock.None? && key.agentId in s.runtimes
    ensures InProgress(s, key) || (exists x :: Meddles(s, x, key, |s.table|))
      <==> exists run :: NoMoreTasks(run, key) && EndsWithSomebodyLeft(s, key, run)
  {
    ReachableInv(s);
    if x :| Meddles(s, x, key, |s.table|) {
      MeddlerStrandsSomebody(s, key, x);
    } else if InProgress(s, key) {
      InProgressIsLeft(s, key);
      var t := DoSendTask(s, key);
      assert Exec(t, []) == Some(t) && NewlyLeft(s, t, key, s.waiters[key]);
      assert NoMoreTasks([], key) && EndsWithSomebodyLeft(s, key, []);
    } else {
      forall run | NoMoreTasks(run, key) && EndsWithSomebodyLeft(s, key, run) ensures false {
        var v :| NewlyLeft(s, Exec(DoSendTask(s, key), run).value, key, v);
        NobodyIsLeft(s, key, run, v);
      }
    }
    hide Inv, Reachable, Meddles, DoSendTask, NewlyLeft;
  }

  lemma MeddlerStrandsSomebody(s: State, key: Key, x: Actor)
    requires Inv(s) && s.lock.None? && key.agentId in s.runtimes && Meddles(s, x, key, |s.table|)
    ensures exists run :: NoMoreTasks(run, key) && EndsWithSomebodyLeft(s, key, run)
  {
    var run := UnsafeReuse(s, key, x);
    var t, w := DoSendTask(s, key), |s.table|;
    NewChat(s, key);
    NamesStay(t, run, w);
    assert NewlyLeft(s, Exec(t, run).value, key, w);
    assert NoMoreTasks(run, key) && EndsWithSomebodyLeft(s, key, run);
    hide Inv, Meddles, DoSendTask;
  }

  lemma {:induction false} NamesStay(s: State, run: seq<Action>, w: WaiterId)
    requires w < |s.table| && Exec(s, run).Some?
    ensures w < |Exec(s, run).value.table| && Exec(s, run).value.table[w].key == s.table[w].key
    decreases |run|
  {
    if run != [] {
      NameStays(s, run[0], w);
      NamesStay(Do(s, run[0]), run[1..], w);
    }
    hide Can, Do;
  }

  // A chat in progress, and the same id again: the first browser is left waiting at once.
  lemma FirstBrowserIsLeft()
    ensures Reachable(Streaming(0, 0, Receiving)) && (forall x :: !Meddles(Streaming(0, 0, Receiving), x, KEY, 1))
    ensures LeftWaiting(DoSendTask(Streaming(0, 0, Receiving), KEY), 0)
  {
    var run := TaskIsRunning();
    assert Reachable(Streaming(0, 0, Receiving));
    hide Reachable;
  }

  // ----- a strictly sequential reuse -----

  const FINAL := Envelope(Done, "agent", "", "message", 0, NO_PAYLOAD)

  // A chat runs to its end and its browser goes, while the reader that delivered the final
  // event has not come to its removeWaiter yet.
  function Ending(k: nat): State {
    var x := NewWaiter(KEY, 0, 0).(consumer := Receiving);
    var s := State(map["agent" := 0], map[KEY := 0], [x], None, map[0 := Reader("agent", Dispatching(FINAL))], []);
    if k == 0 then s
    else
      var t := s.(log := [Dispatched(0, FINAL)]);
      if k == 1 then t.(readers := map[0 := Reader("agent", Locking(0, FINAL))])
      else if k == 2 then t.(table := [x.(holder := Some(0))], readers := map[0 := Reader("agent", Selecting(0, FINAL))])
      else
        var u := t.(readers := map[0 := Reader("agent", Retiring(0))]);
        var y := x.(sent := [Item(FINAL, false)]);
        var z := y.(taken := 1, written := [FINAL]);
        if k == 3 then u.(table := [y])
        else if k == 4 then u.(table := [y.(taken := 1, consumer := Writing(FINAL))])
        else if k == 5 then u.(table := [z.(consumer := Leaving)])
        else if k == 6 then
          u.(waiters := map[], table := [z.(consumer := Consumer.Cancelling(Some(0)), fate := Removed(0))])
        else u.(waiters := map[], table := [z.(consumer := Gone, fate := Removed(0), done := true)])
  }

  lemma ReadsFinal()
    ensures Step(Streaming(0, 0, Receiving), ReadEvent(0, FINAL), Ending(0))
    ensures Step(Ending(0), Snapshot(0), Ending(1))
  {
    assert Deltas(0) == [] && Streaming(0, 0, Receiving).table == Ending(0).table;
    assert Streaming(0, 0, Receiving).log == [];
  }

  lemma LocksForFinal()
    ensures Step(Ending(1), LockWaiter(0), Ending(2))
  {
    assert DoLockWaiter(Ending(1), 0).table == Ending(2).table;
  }

  lemma DeliversFinal()
    ensures Step(Ending(2), Push(0), Ending(3))
  {
    assert Ending(2).table[0].sent + [Item(FINAL, false)] == [Item(FINAL, false)];
    assert DoPush(Ending(2), 0).table == Ending(3).table;
  }

  lemma TakesFinal()
    ensures Step(Ending(3), Receive(0), Ending(4))
  {
    assert DoReceive(Ending(3), 0).table == Ending(4).table;
  }

  lemma ShowsFinal()
    ensures Step(Ending(4), Respond(0, true), Ending(5))
  {
    assert Ending(4).table[0].written + [FINAL] == [FINAL];
    assert DoRespond(Ending(4), 0, true).table == Ending(5).table;
  }

  lemma TakesItselfOut()
    ensures Step(Ending(5), Leave(0), Ending(6))
  {
    assert map[KEY := 0] - {KEY} == map[];
  }

  lemma GoesItself()
    ensures Step(Ending(6), LeaveClose(0), Ending(7))
  {
  }

  // No chat has the id any more: all its browsers have gone, and nothing is in the map.
  predicate LooksFree(s: State, key: Key) {
    && s.lock.None? && key.agentId in s.runtimes && key !in s.waiters
    && forall v :: 0 <= v < |s.table| && s.table[v].key == key ==> s.table[v].consumer.Gone?
  }

  // And yet it is not safe to use the id again.
  lemma SequentialReuseIsUnsafe()
    ensures exists s :: Reachable(s) && LooksFree(s, KEY) && Meddles(s, Runtime(0), KEY, |s.table|)
  {
    hide Can, Do, Exec, Streaming, Ending, Meddles;
    var run := TaskIsRunning();
    var first := [ReadEvent(0, FINAL), Snapshot(0), LockWaiter(0), Push(0)];
    var second := [Receive(0), Respond(0, true), Leave(0), LeaveClose(0)];
    ReadsFinal();
    LocksForFinal();
    DeliversFinal();
    TakesFinal();
    ShowsFinal();
    TakesItselfOut();
    GoesItself();
    ExecFour(Streaming(0, 0, Receiving), first, Ending(0), Ending(1), Ending(2), Ending(3));
    ExecFour(Ending(3), second, Ending(4), Ending(5), Ending(6), Ending(7));
    ExecAppend(INITIAL, run, first);
    ExecAppend(INITIAL, run + first, second);
    EndingMeddles();
    assert Exec(INITIAL, run + first + second) == Some(Ending(7));
    assert Reachable(Ending(7));
  }

  lemma EndingMeddles()
    ensures LooksFree(Ending(7), KEY) && Meddles(Ending(7), Runtime(0), KEY, |Ending(7).table|)
  {
  }

  // The run of ReusedIdStrandsBrowser ends with its second browser left waiting, for ever.
  lemma StrandedIsLeftWaiting()
    ensures LeftWaiting(Stranded(3), 1)
  {
  }
}

/**
 When a message id is used again: which goroutines can take the new chat's waiter out of the
 map, and what becomes of a browser whose waiter is no longer there.
 */
module ProtocolReuse {
  import opened Wrappers
  import opened Envelopes
  import opened Protocol
  import opened ProtocolInvariant
  import opened ProtocolDelivery
  import opened ProtocolProgress
  import opened ProtocolFrame

  // ----- left waiting -----

  // Its browser waits for an event at an empty queue.
  predicate Waiting(s: State, w: WaiterId) {
    w < |s.table| && s.table[w].consumer.Receiving? && s.table[w].taken == |s.table[w].sent|
  }

  // It waits at a waiter that is not in the map, and nobody is delivering to it.
  ghost predicate LeftWaiting(s: State, w: WaiterId) {
    Waiting(s, w) && !s.table[w].fate.Live? && NobodyAt(s, w)
  }

  lemma WaitingBrowserDoesNothing(s: State, a: Action, w: WaiterId)
    requires Can(s, a) && Waiting(s, w)
    ensures ActorOf(a) != Some(Browser(w))
  {
  }

  lemma LeftWaitingStays(s: State, a: Action, w: WaiterId)
    requires Inv(s) && LeftWaiting(s, w) && Can(s, a)
    ensures LeftWaiting(Do(s, a), w) && Do(s, a).table[w].written == s.table[w].written
  {
    WaitingBrowserDoesNothing(s, a, w);
    InMapIsLive(s, w);
    NobodyComes(s, a, w);
    ReadingStays(s, a, w);
    NobodyActsAt(s, a, w);
    QueueStays(s, a, w);
    FateStays(s, a, w);
    hide Can, Do, Inv, NobodyAt, NotInMap;
  }

  lemma NobodyActsAt(s: State, a: Action, w: WaiterId)
    requires NobodyAt(s, w)
    ensures FromElsewhere(s, a, w)
  {
  }

  // Whatever happens, also if the id is used again: such a browser is never written another
  // response.
  lemma {:induction false} LeftWaitingForEver(s: State, w: WaiterId, run: seq<Action>)
    requires Inv(s) && LeftWaiting(s, w) && Exec(s, run).Some?
    ensures LeftWaiting(Exec(s, run).value, w)
    ensures Exec(s, run).value.table[w].written == s.table[w].written
    decreases |run|
  {
    hide Inv, NobodyAt;
    if run != [] {
      LeftWaitingStays(s, run[0], w);
      StepKeeps(s, run[0]);
      LeftWaitingForEver(Do(s, run[0]), w, run[1..]);
    }
  }

  // ----- who can still take out a waiter of a key -----

  // A goroutine that may yet call removeWaiter for the key, on behalf of a waiter other than
  // w: a browser before its removeWaiter, unless it waits for an event that nobody will bring;
  // a reader in Dispatch that has delivered a final event; or one that can still deliver it.
  ghost predicate Meddles(s: State, x: Actor, key: Key, w: WaiterId) {
    match x
    case Browser(v) =>
      v < |s.table| && v != w && s.table[v].key == key && MayLeave(s, v)
    case Runtime(c) =>
      c in s.readers &&
      var pc := s.readers[c].pc;
      && (pc.Retiring? || pc.Locking? || pc.Selecting?)
      && pc.w < |s.table| && pc.w != w && s.table[pc.w].key == key
      && (pc.Retiring? || (IsTerminal(pc.event) && !Full(s.table[pc.w])))
  }

  ghost predicate MayLeave(s: State, v: WaiterId)
    requires v < |s.table|
  {
    var x := s.table[v];
    || x.consumer.Sending? || x.consumer.Writing? || x.consumer.Leaving?
    || (x.consumer.Receiving? && (x.taken < |x.sent| || !NobodyAt(s, v)))
  }

  // Nobody but w itself can take w out.
  ghost predicate Unmeddled(s: State, w: WaiterId) {
    w < |s.table| &&
    var key := s.table[w].key;
    && !Displaced(s, w)
    && (key in s.waiters ==> s.waiters[key] == w)
    && forall x :: !Meddles(s, x, key, w)
  }

  predicate NoMoreTasks(run: seq<Action>, key: Key) {
    forall i :: 0 <= i < |run| ==> run[i] != SendTask(key)
  }

  // ----- without meddlers it stays in place -----

  lemma MapKeepsKey(s: State, a: Action, w: WaiterId)
    requires Can(s, a) && w < |s.table| && a != SendTask(s.table[w].key)
    requires s.table[w].key in s.waiters ==> s.waiters[s.table[w].key] == w
    ensures s.table[w].key in Do(s, a).waiters ==> Do(s, a).waiters[s.table[w].key] == w
  {
  }

  lemma OthersAreNotInMap(s: State, w: WaiterId, v: WaiterId)
    requires Inv(s) && Unmeddled(s, w) && v < |s.table| && v != w && s.table[v].key == s.table[w].key
    ensures NotInMap(s, v)
  {
    InMapIsLive(s, v);
  }

  lemma NotDisplacedBy(s: State, a: Action, w: WaiterId)
    requires Inv(s) && Unmeddled(s, w) && Can(s, a) && a != SendTask(s.table[w].key)
    ensures w < |Do(s, a).table| && !Displaced(Do(s, a), w)
  {
    InMapIsLive(s, w);
    if !s.table[w].fate.Live? {
      FateStays(s, a, w);
    } else {
      hide Inv;
      if a.Leave? {
        assert !Meddles(s, Browser(a.w), s.table[w].key, w);
        LeaveTakesItsKey(s, a.w, w);
      } else if a.Retire? {
        assert !Meddles(s, Runtime(a.c), s.table[w].key, w);
        RetireTakesItsKey(s, a.c, w);
      } else {
        OthersDoNotDisplace(s, a, w);
      }
    }
  }

  lemma LeaveTakesItsKey(s: State, v: WaiterId, w: WaiterId)
    requires CanLeave(s, v) && w < |s.table| && s.table[w].fate.Live?
    requires s.table[w].key in s.waiters && s.waiters[s.table[w].key] == w
    requires v != w ==> s.table[v].key != s.table[w].key
    requires forall key :: key in s.waiters && s.waiters[key] == w ==> key == s.table[w].key
    ensures w < |DoLeave(s, v).table| && DoLeave(s, v).table[w].fate in {Live, Removed(w)}
  {
  }

  lemma RetireTakesItsKey(s: State, c: Conn, w: WaiterId)
    requires CanRetire(s, c) && w < |s.table| && s.table[w].fate.Live?
    requires s.readers[c].pc.w != w ==> s.table[s.readers[c].pc.w].key != s.table[w].key
    requires forall key :: key in s.waiters && s.waiters[key] == w ==> key == s.table[w].key
    ensures w < |DoRetire(s, c).table| && DoRetire(s, c).table[w].fate in {Live, Removed(w)}
  {
  }

  // A waiter's place in the map is taken by another task with its id, and by nothing else.
  lemma OverwrittenIff(s: State, a: Action, w: WaiterId)
    requires Inv(s) && Can(s, a) && w < |s.table| && s.table[w].fate.Live?
    ensures w < |Do(s, a).table|
    ensures Do(s, a).table[w].fate.Overwritten? <==> a == SendTask(s.table[w].key) && s.table[w].key.agentId in s.runtimes
  {
    InMapIsLive(s, w);
    hide Inv;
    if ByRuntime(a) { NotOverwrittenByRuntime(s, a, w); } else { OverwrittenByTask(s, a, w); }
  }

  lemma NotOverwrittenByRuntime(s: State, a: Action, w: WaiterId)
    requires Can(s, a) && w < |s.table| && s.table[w].fate.Live? && ByRuntime(a)
    ensures w < |Do(s, a).table| && !Do(s, a).table[w].fate.Overwritten?
  {
  }

  lemma OverwrittenByTask(s: State, a: Action, w: WaiterId)
    requires Can(s, a) && w < |s.table| && s.table[w].fate.Live? && !ByRuntime(a)
    requires s.table[w].key in s.waiters && s.waiters[s.table[w].key] == w
    requires forall key :: key in s.waiters && s.waiters[key] == w ==> key == s.table[w].key
    ensures w < |Do(s, a).table|
    ensures Do(s, a).table[w].fate.Overwritten? <==> a == SendTask(s.table[w].key) && s.table[w].key.agentId in s.runtimes
  {
    if a.SendTask? { TaskOverwrites(s, a.key, w); } else { NotOverwrittenByBrowser(s, a, w); }
    hide DoSendTask;
  }

  lemma TaskOverwrites(s: State, key: Key, w: WaiterId)
    requires w < |s.table| && s.table[w].fate.Live?
    requires s.table[w].key in s.waiters && s.waiters[s.table[w].key] == w
    requires forall k :: k in s.waiters && s.waiters[k] == w ==> k == s.table[w].key
    ensures w < |DoSendTask(s, key).table|
    ensures DoSendTask(s, key).table[w].fate.Overwritten? <==> key == s.table[w].key && key.agentId in s.runtimes
  {
  }

  lemma NotOverwrittenByBrowser(s: State, a: Action, w: WaiterId)
    requires Can(s, a) && w < |s.table| && s.table[w].fate.Live? && !ByRuntime(a) && !a.SendTask?
    ensures w < |Do(s, a).table| && !Do(s, a).table[w].fate.Overwritten?
  {
  }

  lemma OthersDoNotDisplace(s: State, a: Action, w: WaiterId)
    requires Can(s, a) && w < |s.table| && s.table[w].fate.Live? && !a.Leave? && !a.Retire?
    requires a != SendTask(s.table[w].key)
    requires forall key :: key in s.waiters && s.waiters[key] == w ==> key == s.table[w].key
    ensures w < |Do(s, a).table| && Do(s, a).table[w].fate in {Live, Swept}
  {
  }

  // ----- without meddlers none appear -----

  // A waiter that shares the key, whose browser will not leave by itself.
  lemma BrowserStaysOut(s: State, a: Action, w: WaiterId, v: WaiterId)
    requires Inv(s) && Unmeddled(s, w) && Can(s, a) && a != SendTask(s.table[w].key)
    requires v < |Do(s, a).table|
    ensures !Meddles(Do(s, a), Browser(v), s.table[w].key, w)
  {
    var t, key := Do(s, a), s.table[w].key;
    if v >= |s.table| {
      NewWaiterHasItsKey(s, a, v);
    } else {
      NameStays(s, a, v);
      if v != w && s.table[v].key == key {
        assert !Meddles(s, Browser(v), key, w);
        OthersAreNotInMap(s, w, v);
        if ActorOf(a) == Some(Browser(v)) {
          OnlyGoes(s, a, v);
        } else {
          ReadingStays(s, a, v);
          if s.table[v].consumer.Receiving? {
            NobodyActsAt(s, a, v);
            QueueStays(s, a, v);
            NobodyComes(s, a, v);
          }
        }
      }
    }
    hide Can, Do, Inv, NobodyAt, NotInMap;
  }

  lemma NewWaiterHasItsKey(s: State, a: Action, v: WaiterId)
    requires Can(s, a) && |s.table| <= v < |Do(s, a).table|
    ensures a == SendTask(Do(s, a).table[v].key)
  {
  }

  lemma OnlyGoes(s: State, a: Action, v: WaiterId)
    requires Inv(s) && Can(s, a) && v < |s.table| && ActorOf(a) == Some(Browser(v)) && !MayLeave(s, v)
    ensures v < |Do(s, a).table| && Do(s, a).table[v].consumer.Gone?
  {
    WaiterFacts(s, v);
    hide Inv, LinksOk, LocalOk, NobodyAt;
  }

  // A reader that carries nothing final to such a waiter, or cannot put it on its queue.
  lemma ReaderStaysOut(s: State, a: Action, w: WaiterId, c: Conn)
    requires Inv(s) && Unmeddled(s, w) && Can(s, a) && a != SendTask(s.table[w].key)
    ensures !Meddles(Do(s, a), Runtime(c), s.table[w].key, w)
  {
    var key := s.table[w].key;
    assert !Meddles(s, Runtime(c), key, w);
    if c in s.readers && ActorOf(a) != Some(Runtime(c)) {
      OtherReadersStay(s, a, c);
      ReaderFacts(s, c);
      var pc := s.readers[c].pc;
      if pc.Retiring? || pc.Locking? || pc.Selecting? {
        NameStays(s, a, pc.w);
        if pc.w != w && s.table[pc.w].key == key && Full(s.table[pc.w]) { FullStays(s, a, w, pc.w); }
      }
      hide Can, Do, Inv;
    } else {
      OwnReaderStaysOut(s, a, w, c);
    }
  }

  // Nobody reads from the queue of a waiter whose browser will not leave.
  lemma FullStays(s: State, a: Action, w: WaiterId, v: WaiterId)
    requires Inv(s) && Unmeddled(s, w) && Can(s, a) && v < |s.table| && v != w
    requires s.table[v].key == s.table[w].key && Full(s.table[v])
    ensures v < |Do(s, a).table| && Full(Do(s, a).table[v])
  {
    assert !Meddles(s, Browser(v), s.table[w].key, w);
    SentOnlyGrows(s, a, v);
    if ActorOf(a) == Some(Browser(v)) { GoesWithoutReading(s, a, v); } else { ReadingStays(s, a, v); }
    hide Can, Do, Inv, Unmeddled;
  }

  lemma GoesWithoutReading(s: State, a: Action, v: WaiterId)
    requires Can(s, a) && v < |s.table| && ActorOf(a) == Some(Browser(v)) && !MayLeave(s, v)
    ensures v < |Do(s, a).table| && Do(s, a).table[v].taken == s.table[v].taken
  {
    hide NobodyAt;
  }

  // Its own step: it comes to a waiter of the key only through the map, where w is.
  lemma OwnReaderStaysOut(s: State, a: Action, w: WaiterId, c: Conn)
    requires Inv(s) && Unmeddled(s, w) && Can(s, a) && a != SendTask(s.table[w].key)
    requires c in s.readers ==> ActorOf(a) == Some(Runtime(c))
    ensures !Meddles(Do(s, a), Runtime(c), s.table[w].key, w)
  {
    var key := s.table[w].key;
    assert !Meddles(s, Runtime(c), key, w);
    if a.Snapshot? && a.c == c {
      SnapshotStaysOut(s, c, w);
    } else if (a.LockWaiter? || a.Push?) && a.c == c {
      ReaderFacts(s, c);
      DeliveryStaysOut(s, a, w);
    } else {
      hide Inv, Unmeddled;
      NoDeliveryStarts(s, a, c);
    }
  }

  predicate Delivers(s: State, c: Conn) {
    c in s.readers && (s.readers[c].pc.Locking? || s.readers[c].pc.Selecting? || s.readers[c].pc.Retiring?)
  }

  lemma NoDeliveryStarts(s: State, a: Action, c: Conn)
    requires Can(s, a) && (c in s.readers ==> ActorOf(a) == Some(Runtime(c)))
    requires a.Snapshot? || a.LockWaiter? || a.Push? ==> a.c != c
    ensures !Delivers(Do(s, a), c)
  {
  }

  lemma SnapshotStaysOut(s: State, c: Conn, w: WaiterId)
    requires Inv(s) && Unmeddled(s, w) && CanSnapshot(s, c)
    ensures !Meddles(DoSnapshot(s, c), Runtime(c), s.table[w].key, w)
  {
    ReaderFacts(s, c);
    var key := EventKey(s.readers[c].pc.event);
    if key in s.waiters { MapEntry(s, key); }
    hide Inv;
  }

  lemma DeliveryStaysOut(s: State, a: Action, w: WaiterId)
    requires (a.LockWaiter? || a.Push?) && Can(s, a) && w < |s.table|
    requires !Meddles(s, Runtime(a.c), s.table[w].key, w)
    requires s.readers[a.c].pc.Locking? || s.readers[a.c].pc.Selecting? ==> s.readers[a.c].pc.w < |s.table|
    ensures !Meddles(Do(s, a), Runtime(a.c), s.table[w].key, w)
  {
  }

  lemma UnmeddledStays(s: State, a: Action, w: WaiterId)
    requires Inv(s) && Unmeddled(s, w) && Can(s, a) && a != SendTask(s.table[w].key)
    ensures Unmeddled(Do(s, a), w) && Do(s, a).table[w].key == s.table[w].key
  {
    var t := Do(s, a);
    NameStays(s, a, w);
    NotDisplacedBy(s, a, w);
    MapKeepsKey(s, a, w);
    forall x ensures !Meddles(t, x, s.table[w].key, w) {
      if x.Runtime? { ReaderStaysOut(s, a, w, x.c); }
      else if x.w < |t.table| { BrowserStaysOut(s, a, w, x.w); }
    }
    hide Can, Do, Inv, Meddles;
  }

  lemma {:induction false} UnmeddledRun(s: State, w: WaiterId, run: seq<Action>)
    requires Inv(s) && Unmeddled(s, w) && NoMoreTasks(run, s.table[w].key) && Exec(s, run).Some?
    ensures Inv(Exec(s, run).value) && Unmeddled(Exec(s, run).value, w)
    decreases |run|
  {
    hide Inv, Unmeddled;
    if run != [] {
      InTable(s, w);
      UnmeddledStays(s, run[0], w);
      StepKeeps(s, run[0]);
      assert NoMoreTasks(run[1..], s.table[w].key);
      UnmeddledRun(Do(s, run[0]), w, run[1..]);
    }
  }

  lemma InTable(s: State, w: WaiterId)
    requires Unmeddled(s, w)
    ensures w < |s.table| && !Displaced(s, w)
  {
  }

  // And a browser whose waiter was not displaced is not left waiting.
  lemma NotLeftWaiting(s: State, w: WaiterId)
    requires Reachable(s) && w < |s.table| && !Displaced(s, w)
    ensures !LeftWaiting(s, w)
  {
    if LeftWaiting(s, w) {
      ReadNothingFinal(s, w);
      OutMeansClosedOrOwn(s, w);
      EventsHaveTerminal(s.table[w]);
      if s.table[w].done { ClosedMeansAnswered(s, w); }
    }
  }

  // A waiter that was not displaced and is out of the map has a final event, or is closed.
  lemma OutMeansClosedOrOwn(s: State, w: WaiterId)
    requires Reachable(s) && w < |s.table| && !Displaced(s, w) && LeftWaiting(s, w)
    ensures HasRealTerminal(s.table[w].sent) || s.table[w].done
  {
    ReachableInv(s);
    WaiterFacts(s, w);
    if s.lock.Some? { assert !IsAt(s, s.lock.value, w); }
    hide Inv, Reachable, HasRealTerminal;
  }

  lemma ReadNothingFinal(s: State, w: WaiterId)
    requires Reachable(s) && Waiting(s, w)
    ensures NoTerminal(Events(s.table[w].sent))
  {
    ReachableInv(s);
    WaiterFacts(s, w);
    assert s.table[w].written == Events(s.table[w].sent);
  }
}

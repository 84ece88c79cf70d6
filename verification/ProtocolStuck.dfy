/**
 Who can get stuck in the gateway, exactly: the goroutines behind a jammed registry, and a
 connection whose reader is delivering to a full queue that nobody will ever read or close.
 */
module ProtocolStuck {
  import opened Wrappers
  import opened Envelopes
  import opened Protocol
  import opened ProtocolInvariant
  import opened ProtocolDelivery
  import opened ProtocolProgress
  import opened ProtocolFrame

  // ----- a waiter taken out by a removeWaiter call is about to be closed -----

  ghost predicate ClosersOk(s: State) {
    forall w {:trigger ToBeClosed(s, w)} :: 0 <= w < |s.table| ==> ToBeClosed(s, w)
  }

  ghost predicate ToBeClosed(s: State, w: WaiterId)
    requires w < |s.table|
  {
    s.table[w].fate.Removed? && !s.table[w].done ==> exists x :: ClosesNext(s, x, w)
  }

  // Who is about to close a waiter stays so until it does.
  lemma CloserStays(s: State, a: Action, x: Actor, w: WaiterId)
    requires Can(s, a) && ClosesNext(s, x, w) && w < |s.table|
    ensures w < |Do(s, a).table|
    ensures ClosesNext(Do(s, a), x, w) || Do(s, a).table[w].done
  {
    if ActorOf(a) != Some(x) {
      if x.Runtime? { OtherReadersStay(s, a, x.c); } else { ReadingStays(s, a, x.w); }
      NameStays(s, a, w);
      hide Can, Do;
    } else {
      CloserCloses(s, a, x, w);
    }
  }

  lemma CloserCloses(s: State, a: Action, x: Actor, w: WaiterId)
    requires Can(s, a) && ClosesNext(s, x, w) && w < |s.table| && ActorOf(a) == Some(x)
    ensures w < |Do(s, a).table| && Do(s, a).table[w].done
  {
  }

  lemma RemovedByCloser(s: State, a: Action, w: WaiterId)
    requires Inv(s) && Can(s, a) && w < |s.table| && s.table[w].fate.Live?
    requires w < |Do(s, a).table| && Do(s, a).table[w].fate.Removed?
    ensures exists x :: ClosesNext(Do(s, a), x, w)
  {
    InMapIsLive(s, w);
    RemovedBy(s, a, w);
    assert ClosesNext(Do(s, a), ActorOf(a).value, w);
  }

  lemma RemovedBy(s: State, a: Action, w: WaiterId)
    requires Can(s, a) && w < |s.table| && s.table[w].fate.Live?
    requires s.table[w].key in s.waiters && s.waiters[s.table[w].key] == w
    requires w < |Do(s, a).table| && Do(s, a).table[w].fate.Removed?
    ensures ActorOf(a).Some? && ClosesNext(Do(s, a), ActorOf(a).value, w)
  {
    if ByRuntime(a) { RemovedByRuntime(s, a, w); } else { RemovedByBrowser(s, a, w); }
  }

  lemma RemovedByRuntime(s: State, a: Action, w: WaiterId)
    requires Can(s, a) && w < |s.table| && s.table[w].fate.Live? && ByRuntime(a)
    requires s.table[w].key in s.waiters && s.waiters[s.table[w].key] == w
    requires w < |Do(s, a).table| && Do(s, a).table[w].fate.Removed?
    ensures ClosesNext(Do(s, a), ActorOf(a).value, w)
  {
  }

  lemma RemovedByBrowser(s: State, a: Action, w: WaiterId)
    requires Can(s, a) && w < |s.table| && s.table[w].fate.Live? && !ByRuntime(a)
    requires s.table[w].key in s.waiters && s.waiters[s.table[w].key] == w
    requires w < |Do(s, a).table| && Do(s, a).table[w].fate.Removed?
    ensures ActorOf(a).Some? && ClosesNext(Do(s, a), ActorOf(a).value, w)
  {
  }

  lemma ClosersStep(s: State, a: Action)
    requires Inv(s) && ClosersOk(s) && Can(s, a)
    ensures ClosersOk(Do(s, a))
  {
    var t := Do(s, a);
    hide Can, Do, Inv, ClosesNext;
    forall w | 0 <= w < |t.table| ensures ToBeClosed(t, w) {
      if w >= |s.table| {
        NewWaitersAreLive(s, a, w);
      } else {
        assert ToBeClosed(s, w);
        NameStays(s, a, w);
        if s.table[w].fate.Live? {
          if t.table[w].fate.Removed? { RemovedByCloser(s, a, w); }
        } else {
          FateStays(s, a, w);
          if x :| ClosesNext(s, x, w) { CloserStays(s, a, x, w); }
        }
      }
    }
  }

  lemma NewWaitersAreLive(s: State, a: Action, w: WaiterId)
    requires Can(s, a) && |s.table| <= w < |Do(s, a).table|
    ensures Do(s, a).table[w].fate.Live?
  {
    if a.SendTask? {
      NewWaiterIsLive(s, a.key, w);
    } else {
      TableStays(s, a);
      assert false;
    }
  }

  lemma NewWaiterIsLive(s: State, key: Key, w: WaiterId)
    requires |s.table| <= w < |DoSendTask(s, key).table|
    ensures DoSendTask(s, key).table[w].fate.Live?
  {
  }

  lemma {:induction false} ClosersRun(s: State, run: seq<Action>)
    requires Inv(s) && ClosersOk(s) && Exec(s, run).Some?
    ensures ClosersOk(Exec(s, run).value)
    decreases |run|
  {
    if run != [] {
      ClosersStep(s, run[0]);
      StepKeeps(s, run[0]);
      ClosersRun(Do(s, run[0]), run[1..]);
    }
  }

  lemma ReachableClosers(s: State)
    requires Reachable(s)
    ensures Inv(s) && ClosersOk(s)
  {
    ReachableInv(s);
    var run :| Exec(INITIAL, run) == Some(s);
    assert Inv(INITIAL);
    ClosersRun(INITIAL, run);
  }

  // ----- who waits for whom -----

  // In the middle of something: anything but waiting for a message from the runtime, for an
  // event on an empty queue, or for nothing any more.
  ghost predicate Busy(s: State, x: Actor) {
    match x
    case Runtime(c) => c in s.readers && !s.readers[c].pc.Reading? && !s.readers[c].pc.Closed?
    case Browser(w) => w < |s.table| && BusyConsumer(s.table[w])
  }

  predicate BusyConsumer(x: Waiter) {
    !x.consumer.Gone? && !(x.consumer.Receiving? && x.taken == |x.sent|)
  }

  predicate NeedsRegistry(pc: Pc) {
    pc.Connected? || pc.Dispatching? || pc.Retiring? || pc.Departing?
  }

  // x cannot go on before y does: y holds the mutex x is waiting for; or x is delivering to a
  // full queue, and y reads from it, or is about to close its waiter.
  predicate WaitsFor(s: State, x: Actor, y: Actor) {
    match x
    case Browser(w) =>
      w < |s.table| && s.table[w].consumer.Leaving? && s.lock.Some? && y == Runtime(s.lock.value)
    case Runtime(c) =>
      c in s.readers &&
      var pc := s.readers[c].pc;
      if NeedsRegistry(pc) then s.lock.Some? && y == Runtime(s.lock.value)
      else if pc.Locking? || pc.FailLocking? then
        pc.w < |s.table| && s.table[pc.w].holder.Some? && y == Runtime(s.table[pc.w].holder.value)
      else if pc.Selecting? || pc.FailSelecting? then
        pc.w < |s.table| && Full(s.table[pc.w]) && !s.table[pc.w].done
        && ((y == Browser(pc.w) && !s.table[pc.w].consumer.Gone?) || ClosesNext(s, y, pc.w))
      else false
  }

  // y is n waits ahead of x.
  ghost predicate Ahead(s: State, x: Actor, y: Actor, n: nat)
    decreases n
  {
    if n == 0 then x == y else exists z :: WaitsFor(s, x, z) && Ahead(s, z, y, n - 1)
  }

  // x, or one that it waits for, directly or not, can take a step.
  ghost predicate CanGoOn(s: State, x: Actor) {
    exists y, n: nat, a :: Ahead(s, x, y, n) && StepsNow(s, y, a)
  }

  predicate StepsNow(s: State, y: Actor, a: Action) {
    ActorOf(a) == Some(y) && Internal(a) && Can(s, a)
  }

  // ----- stuck for good -----

  // In a delivery to a full queue whose waiter was overwritten in the map, so that nobody will
  // close it, and whose browser has gone, so that nobody will read from it.
  predicate Abandoned(s: State, c: Conn) {
    c in s.readers && s.readers[c].pc.Selecting? && s.readers[c].pc.w < |s.table| &&
    var x := s.table[s.readers[c].pc.w];
    Full(x) && x.fate.Overwritten? && x.consumer.Gone?
  }

  // Behind a jammed registry: it needs its lock, holds it, or waits for one of these.
  ghost predicate BehindJam(s: State, x: Actor) {
    Jammed(s) &&
    match x
    case Browser(w) => w < |s.table| && s.table[w].consumer.Leaving?
    case Runtime(c) =>
      c in s.readers &&
      var pc := s.readers[c].pc;
      || NeedsRegistry(pc)
      || pc.FailLocking? || pc.FailSelecting?
      || (pc.Locking? && pc.w < |s.table| && s.table[pc.w].holder.Some?)
      || (pc.Selecting? && pc.w < |s.table| &&
          var x := s.table[pc.w]; Full(x) && !x.done && x.consumer.Leaving? && !x.fate.Removed?)
  }

  ghost predicate Stuck(s: State, x: Actor) {
    BehindJam(s, x) || (x.Runtime? && Abandoned(s, x.c))
  }

  // ----- what is stuck cannot go on -----

  lemma AbandonedTakesNoStep(s: State, c: Conn, a: Action)
    requires Inv(s) && Abandoned(s, c)
    ensures !StepsNow(s, Runtime(c), a)
  {
    var w := s.readers[c].pc.w;
    WaiterFacts(s, w);
    PlaceFacts(s.table[w], ContextOf(s, w));
    hide Inv, LinksOk, LocalOk, ContextOf;
  }

  lemma BehindJamTakesNoStep(s: State, x: Actor, a: Action)
    requires Inv(s) && BehindJam(s, x)
    ensures !StepsNow(s, x, a)
  {
    if x.Runtime? { ReaderFacts(s, x.c); }
    JamFacts(s);
    hide Inv, LocalOk;
  }

  lemma StuckTakesNoStep(s: State, x: Actor, a: Action)
    requires Inv(s) && Stuck(s, x)
    ensures !StepsNow(s, x, a)
  {
    if BehindJam(s, x) { BehindJamTakesNoStep(s, x, a); } else { AbandonedTakesNoStep(s, x.c, a); }
  }

  lemma AbandonedWaitsForNobody(s: State, c: Conn, y: Actor)
    requires Inv(s) && Abandoned(s, c)
    ensures !WaitsFor(s, Runtime(c), y)
  {
    var w := s.readers[c].pc.w;
    if ClosesNext(s, y, w) { ClosedIsRemoved(s, y, w); }
  }

  lemma ClosedIsRemoved(s: State, y: Actor, w: WaiterId)
    requires Inv(s) && ClosesNext(s, y, w)
    ensures w < |s.table| && s.table[w].fate.Removed?
  {
    if y.Runtime? { ReaderFacts(s, y.c); } else { WaiterFacts(s, y.w); }
  }

  // Whoever holds the mutex of a waiter while its own reader waits for that, is sweeping.
  lemma OtherHolderSweeps(s: State, c: Conn, d: Conn)
    requires Inv(s) && c in s.readers && s.readers[c].pc.Locking? && s.readers[c].pc.w < |s.table|
    requires s.table[s.readers[c].pc.w].holder == Some(d)
    ensures s.lock == Some(d) && d in s.readers
    ensures s.readers[d].pc.FailSelecting? || s.readers[d].pc.FailClosing?
    ensures s.readers[d].pc.w == s.readers[c].pc.w
  {
    var w := s.readers[c].pc.w;
    ReaderFacts(s, c);
    WaiterFacts(s, w);
    ReaderFacts(s, d);
  }

  lemma BehindJamWaitsBehindJam(s: State, x: Actor, y: Actor)
    requires Inv(s) && BehindJam(s, x) && WaitsFor(s, x, y)
    ensures BehindJam(s, y)
  {
    JamFacts(s);
    if x.Runtime? {
      var c := x.c;
      var pc := s.readers[c].pc;
      ReaderFacts(s, c);
      if pc.Locking? {
        OtherHolderSweeps(s, c, y.c);
      } else if pc.Selecting? || pc.FailSelecting? {
        if ClosesNext(s, y, pc.w) { ClosedIsRemoved(s, y, pc.w); }
      }
    }
    hide Inv, LocalOk, LinksOk, ClosesNext;
  }

  lemma {:induction false} StuckStaysAhead(s: State, x: Actor, y: Actor, n: nat)
    requires Inv(s) && Stuck(s, x) && Ahead(s, x, y, n)
    ensures Stuck(s, y)
    decreases n
  {
    hide Inv, WaitsFor, BehindJam, Abandoned;
    if n > 0 {
      var z :| WaitsFor(s, x, z) && Ahead(s, z, y, n - 1);
      if BehindJam(s, x) { BehindJamWaitsBehindJam(s, x, z); } else { AbandonedWaitsForNobody(s, x.c, z); }
      StuckStaysAhead(s, z, y, n - 1);
    }
  }

  // ----- what is not stuck can go on -----

  lemma StepsItself(s: State, x: Actor, a: Action)
    requires StepsNow(s, x, a)
    ensures CanGoOn(s, x)
  {
    assert Ahead(s, x, x, 0) && StepsNow(s, x, a);
  }

  lemma GoesOnBehind(s: State, x: Actor, z: Actor)
    requires WaitsFor(s, x, z) && CanGoOn(s, z)
    ensures CanGoOn(s, x)
  {
    hide WaitsFor, StepsNow;
    var y, n: nat, a :| Ahead(s, z, y, n) && StepsNow(s, y, a);
    assert Ahead(s, x, y, n + 1);
  }

  lemma TakenIsSent(s: State, w: WaiterId)
    requires Inv(s) && w < |s.table|
    ensures s.table[w].taken <= |s.table[w].sent|
  {
    WaiterFacts(s, w);
    hide Inv, LinksOk, PlaceOk, SweepOk, ConsumerOk;
  }

  lemma ReadingBrowserGoesOn(s: State, w: WaiterId)
    requires Inv(s) && w < |s.table| && BusyConsumer(s.table[w]) && !s.table[w].consumer.Leaving?
    ensures CanGoOn(s, Browser(w))
  {
    TakenIsSent(s, w);
    hide Inv;
    var a :=
      match s.table[w].consumer
      case Sending => WriteTask(w, true)
      case Receiving => Receive(w)
      case Writing(_) => Respond(w, true)
      case _ => LeaveClose(w);
    StepsItself(s, Browser(w), a);
    hide CanGoOn;
  }

  lemma CloserGoesOn(s: State, y: Actor, w: WaiterId)
    requires ClosesNext(s, y, w)
    ensures CanGoOn(s, y)
  {
    StepsItself(s, y, if y.Runtime? then CloseDone(y.c) else LeaveClose(y.w));
  }

  lemma FreeSweeperSteps(s: State, c: Conn)
    requires Inv(s) && s.lock == Some(c) && c in s.readers && !Waits(s.readers[c].pc)
    ensures CanGoOn(s, Runtime(c))
  {
    var a := SweeperCanGoOn(s, c);
    hide Inv;
    StepsItself(s, Runtime(c), a);
  }

  lemma WaitingSweeperGoesOn(s: State, c: Conn)
    requires Inv(s) && s.lock == Some(c) && c in s.readers && Waits(s.readers[c].pc) && !Jammed(s)
    ensures CanGoOn(s, Runtime(c))
  {
    ReaderFacts(s, c);
    var pc := s.readers[c].pc;
    var w := pc.w;
    var x := s.table[w];
    SweptIsRead(s, c);
    if pc.FailLocking? && x.holder.None? {
      StepsItself(s, Runtime(c), LockWaiter(c));
    } else if pc.FailSelecting? && !Full(x) {
      StepsItself(s, Runtime(c), FailPush(c));
    } else if pc.FailLocking? {
      HolderDelivers(s, c, x.holder.value);
      DeliveryToReaderGoesOn(s, x.holder.value);
      GoesOnBehind(s, Runtime(c), Runtime(x.holder.value));
    } else {
      FullIsBusy(s, w);
      ReadingBrowserGoesOn(s, w);
      GoesOnBehind(s, Runtime(c), Browser(w));
    }
  }

  // The waiter a sweep is waiting for is open, and its browser reads on, unless jammed.
  lemma SweptIsRead(s: State, c: Conn)
    requires Inv(s) && s.lock == Some(c) && c in s.readers && Waits(s.readers[c].pc) && !Jammed(s)
    ensures s.readers[c].pc.w < |s.table|
    ensures var x := s.table[s.readers[c].pc.w];
      && !x.done && !x.consumer.Gone? && !x.consumer.Cancelling?
      && (Full(x) && (s.readers[c].pc.FailLocking? ==> x.holder.Some?) ==> !x.consumer.Leaving?)
  {
    ReaderFacts(s, c);
    var w := s.readers[c].pc.w;
    WaiterFacts(s, w);
    PlaceFacts(s.table[w], ContextOf(s, w));
    hide Inv, LocalOk, LinksOk;
  }

  // The mutex a sweep waits for is held by a delivery.
  lemma HolderDelivers(s: State, c: Conn, d: Conn)
    requires Inv(s) && s.lock == Some(c) && c in s.readers && s.readers[c].pc.FailLocking?
    requires s.readers[c].pc.w < |s.table| && s.table[s.readers[c].pc.w].holder == Some(d)
    ensures d in s.readers && s.readers[d].pc.Selecting? && s.readers[d].pc.w == s.readers[c].pc.w
  {
    ReaderFacts(s, c);
    WaiterFacts(s, s.readers[c].pc.w);
    ReaderFacts(s, d);
  }

  lemma FullIsBusy(s: State, w: WaiterId)
    requires w < |s.table| && Full(s.table[w])
    ensures BusyConsumer(s.table[w]) || s.table[w].consumer.Gone?
  {
  }

  lemma DeliveryToReaderGoesOn(s: State, d: Conn)
    requires Inv(s) && d in s.readers && s.readers[d].pc.Selecting? && s.readers[d].pc.w < |s.table|
    requires var x := s.table[s.readers[d].pc.w];
      !x.done && !x.consumer.Gone? && (Full(x) ==> !x.consumer.Leaving?)
    ensures CanGoOn(s, Runtime(d))
  {
    var w := s.readers[d].pc.w;
    if !Full(s.table[w]) {
      StepsItself(s, Runtime(d), Push(d));
    } else {
      FullIsBusy(s, w);
      ReadingBrowserGoesOn(s, w);
      GoesOnBehind(s, Runtime(d), Browser(w));
    }
  }

  lemma SweeperGoesOn(s: State)
    requires Inv(s) && s.lock.Some? && !Jammed(s)
    ensures CanGoOn(s, Runtime(s.lock.value))
  {
    var c := s.lock.value;
    if Waits(s.readers[c].pc) { WaitingSweeperGoesOn(s, c); } else { FreeSweeperSteps(s, c); }
  }

  lemma LeavingBrowserGoesOn(s: State, w: WaiterId)
    requires Inv(s) && w < |s.table| && s.table[w].consumer.Leaving? && !Jammed(s)
    ensures CanGoOn(s, Browser(w))
  {
    if s.lock.None? {
      StepsItself(s, Browser(w), Leave(w));
    } else {
      SweeperGoesOn(s);
      GoesOnBehind(s, Browser(w), Runtime(s.lock.value));
    }
  }

  lemma RegistryUserGoesOn(s: State, c: Conn)
    requires Inv(s) && c in s.readers && NeedsRegistry(s.readers[c].pc) && !Jammed(s)
    ensures CanGoOn(s, Runtime(c))
  {
    ReaderFacts(s, c);
    var pc := s.readers[c].pc;
    if s.lock.None? {
      StepsItself(s, Runtime(c),
        if pc.Connected? then Register(c) else if pc.Dispatching? then Snapshot(c)
        else if pc.Retiring? then Retire(c) else Unregister(c));
    } else {
      SweeperGoesOn(s);
      GoesOnBehind(s, Runtime(c), Runtime(s.lock.value));
    }
  }

  lemma LockerGoesOn(s: State, c: Conn)
    requires Inv(s) && c in s.readers && s.readers[c].pc.Locking? && !BehindJam(s, Runtime(c))
    ensures CanGoOn(s, Runtime(c))
  {
    ReaderFacts(s, c);
    var x := s.table[s.readers[c].pc.w];
    if x.holder.None? {
      StepsItself(s, Runtime(c), LockWaiter(c));
    } else {
      OtherHolderSweeps(s, c, x.holder.value);
      SweeperGoesOn(s);
      GoesOnBehind(s, Runtime(c), Runtime(x.holder.value));
    }
  }

  lemma DelivererGoesOn(s: State, c: Conn)
    requires Inv(s) && ClosersOk(s) && c in s.readers && s.readers[c].pc.Selecting? && !Stuck(s, Runtime(c))
    ensures CanGoOn(s, Runtime(c))
  {
    ReaderFacts(s, c);
    var w := s.readers[c].pc.w;
    var x := s.table[w];
    if x.consumer.Gone? { GoneIsClosed(s, w); }
    assert ToBeClosed(s, w);
    if !Full(x) {
      StepsItself(s, Runtime(c), Push(c));
    } else if x.done {
      StepsItself(s, Runtime(c), Drop(c));
    } else if x.fate.Removed? {
      var y :| ClosesNext(s, y, w);
      CloserGoesOn(s, y, w);
      GoesOnBehind(s, Runtime(c), y);
    } else if x.consumer.Leaving? {
      LeavingBrowserGoesOn(s, w);
      GoesOnBehind(s, Runtime(c), Browser(w));
    } else {
      FullIsBusy(s, w);
      ReadingBrowserGoesOn(s, w);
      GoesOnBehind(s, Runtime(c), Browser(w));
    }
  }

  // The waiter of a browser that has gone is closed, or about to be, or was overwritten.
  lemma GoneIsClosed(s: State, w: WaiterId)
    requires Inv(s) && w < |s.table| && s.table[w].consumer.Gone?
    ensures s.table[w].done || s.table[w].fate.Removed? || s.table[w].fate.Overwritten?
  {
    WaiterFacts(s, w);
    PlaceFacts(s.table[w], ContextOf(s, w));
  }

  lemma NotStuckGoesOn(s: State, x: Actor)
    requires Inv(s) && ClosersOk(s) && Busy(s, x) && !Stuck(s, x)
    ensures CanGoOn(s, x)
  {
    match x
    case Browser(w) =>
      if s.table[w].consumer.Leaving? { LeavingBrowserGoesOn(s, w); } else { ReadingBrowserGoesOn(s, w); }
    case Runtime(c) =>
      var pc := s.readers[c].pc;
      ReaderFacts(s, c);
      if NeedsRegistry(pc) { RegistryUserGoesOn(s, c); }
      else if pc.Locking? { LockerGoesOn(s, c); }
      else if pc.Selecting? { DelivererGoesOn(s, c); }
      else if pc.Cancelling? { StepsItself(s, x, CloseDone(c)); }
      else { JammedSweeperWaits(s, c); SweeperGoesOn(s); }
  }

  lemma JammedSweeperWaits(s: State, c: Conn)
    requires Inv(s) && s.lock == Some(c) && c in s.readers && !BehindJam(s, Runtime(c))
    ensures !Jammed(s)
  {
  }

  // ----- the theorems -----

  // In every reachable state, a goroutine that is in the middle of something, or one that it
  // waits for, can take a step, unless it is behind a jammed registry or abandoned in a
  // delivery; and then neither can.
  lemma GoesOnUnlessStuck(s: State, x: Actor)
    requires Reachable(s) && Busy(s, x)
    ensures CanGoOn(s, x) <==> !Stuck(s, x)
  {
    ReachableClosers(s);
    hide Busy, Inv, ClosersOk, Stuck;
    if !Stuck(s, x) {
      NotStuckGoesOn(s, x);
    } else if CanGoOn(s, x) {
      var y, n: nat, a :| Ahead(s, x, y, n) && StepsNow(s, y, a);
      StuckStaysAhead(s, x, y, n);
      StuckTakesNoStep(s, y, a);
    }
  }

  // No goroutine can take a step of its own.
  ghost predicate Settled(s: State) {
    forall a :: Internal(a) ==> !Can(s, a)
  }

  lemma OnlyBusyStep(s: State, a: Action)
    requires Inv(s) && Internal(a) && Can(s, a)
    ensures ActorOf(a).Some? && Busy(s, ActorOf(a).value)
  {
  }

  // So the gateway comes to rest exactly when all that are in the middle of something are stuck.
  lemma SettledIff(s: State)
    requires Reachable(s)
    ensures Settled(s) <==> forall x :: Busy(s, x) ==> Stuck(s, x)
  {
    ReachableClosers(s);
    if Settled(s) {
      forall x | Busy(s, x) ensures Stuck(s, x) {
        GoesOnUnlessStuck(s, x);
      }
    } else {
      var a :| Internal(a) && Can(s, a);
      OnlyBusyStep(s, a);
      if Stuck(s, ActorOf(a).value) { StuckTakesNoStep(s, ActorOf(a).value, a); }
    }
    hide Busy, Stuck, Inv, ClosersOk, CanGoOn;
  }

  // If no browser gives up on a failed write, nobody is ever stuck.
  lemma NobodyStuckIfNobodyQuits(s: State, x: Actor)
    requires Reachable(s) && NobodyQuits(s)
    ensures !Stuck(s, x)
  {
    ReachableInv(s);
    NoJamIfNobodyQuits(s);
    hide Inv;
    if x.Runtime? && Abandoned(s, x.c) {
      ReachableInv(s);
      LittleAfterTheEnd(s, s.readers[x.c].pc.w);
    }
  }
}

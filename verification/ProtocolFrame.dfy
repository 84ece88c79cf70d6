/**
 Who does what: each action of the chat-task protocol is a step of one goroutine, and leaves
 alone what is not that goroutine's to change.
 */
module ProtocolFrame {
  import opened Wrappers
  import opened Envelopes
  import opened Protocol
  import opened ProtocolInvariant

  // The goroutine of a runtime connection, and the one that sent a task.
  datatype Actor = Runtime(c: Conn) | Browser(w: WaiterId)

  function ActorOf(a: Action): Option<Actor> {
    match a
    case SendTask(_) => None
    case WriteTask(w, _) => Some(Browser(w))
    case Receive(w) => Some(Browser(w))
    case Respond(w, _) => Some(Browser(w))
    case Leave(w) => Some(Browser(w))
    case LeaveClose(w) => Some(Browser(w))
    case Connect(c, _) => Some(Runtime(c))
    case Register(c) => Some(Runtime(c))
    case ReadEvent(c, _) => Some(Runtime(c))
    case ReadError(c) => Some(Runtime(c))
    case Snapshot(c) => Some(Runtime(c))
    case LockWaiter(c) => Some(Runtime(c))
    case Push(c) => Some(Runtime(c))
    case Drop(c) => Some(Runtime(c))
    case Retire(c) => Some(Runtime(c))
    case CloseDone(c) => Some(Runtime(c))
    case Unregister(c) => Some(Runtime(c))
    case SweepOne(c, _) => Some(Runtime(c))
    case SweepEnd(c) => Some(Runtime(c))
    case FailPush(c) => Some(Runtime(c))
    case FailSkip(c) => Some(Runtime(c))
    case FailClose(c) => Some(Runtime(c))
  }

  predicate ByRuntime(a: Action) {
    ActorOf(a).Some? && ActorOf(a).value.Runtime?
  }

  // The waiter a goroutine is delivering to, or failing.
  predicate IsAt(s: State, c: Conn, w: WaiterId) {
    c in s.readers &&
    match s.readers[c].pc
    case Locking(v, _) => v == w
    case Selecting(v, _) => v == w
    case FailLocking(v, _) => v == w
    case FailSelecting(v, _) => v == w
    case FailClosing(v, _) => v == w
    case _ => false
  }

  // The next step of x closes the `done` of w.
  predicate ClosesNext(s: State, x: Actor, w: WaiterId) {
    match x
    case Runtime(c) => c in s.readers && s.readers[c].pc == Pc.Cancelling(Some(w))
    case Browser(v) => v < |s.table| && s.table[v].consumer == Consumer.Cancelling(Some(w))
  }

  lemma OtherReadersStay(s: State, a: Action, c: Conn)
    requires Can(s, a) && c in s.readers && ActorOf(a) != Some(Runtime(c))
    ensures c in Do(s, a).readers && Do(s, a).readers[c] == s.readers[c]
  {
  }

  // ----- one waiter, before and after a step -----

  // What its own browser keeps of it.
  predicate SameReading(x: Waiter, y: Waiter) {
    y.consumer == x.consumer && y.taken == x.taken && y.quit == x.quit && y.written == x.written
  }

  predicate SameName(x: Waiter, y: Waiter) {
    y.key == x.key && y.conn == x.conn && y.born == x.born
  }

  predicate SameQueue(x: Waiter, y: Waiter) {
    y.sent == x.sent && y.holder == x.holder
  }

  // A step of a browser goroutine.
  predicate BrowserTouch(x: Waiter, y: Waiter) {
    && y == x.(consumer := y.consumer, taken := y.taken, quit := y.quit, written := y.written,
               fate := y.fate, done := y.done)
    && (x.done ==> y.done)
  }

  // A step of a connection's goroutine.
  predicate RuntimeTouch(x: Waiter, y: Waiter) {
    && y == x.(sent := y.sent, holder := y.holder, fate := y.fate, done := y.done)
    && (x.done ==> y.done)
  }

  lemma BrowserTouches(s: State, a: Action, w: WaiterId)
    requires Can(s, a) && w < |s.table| && !ByRuntime(a) && !a.SendTask?
    ensures w < |Do(s, a).table| && BrowserTouch(s.table[w], Do(s, a).table[w])
  {
    if a.Leave? {
      LeaveTouches(s, a.w, w);
    } else if a.LeaveClose? {
      LeaveCloseTouches(s, a.w, w);
    } else {
      ReadingTouches(s, a, w);
    }
    hide CanLeave, DoLeave, CanLeaveClose, DoLeaveClose;
  }

  lemma TakeOutTouches(s: State, v: WaiterId, w: WaiterId)
    requires v < |s.table| && w < |s.table|
    ensures |TakeOut(s, v).table| == |s.table|
    ensures var y := TakeOut(s, v).table[w]; y == s.table[w].(fate := y.fate)
    ensures NotInMap(s, w) ==> TakeOut(s, v).table[w] == s.table[w]
  {
  }

  predicate NotInMap(s: State, w: WaiterId) {
    forall key :: key in s.waiters ==> s.waiters[key] != w
  }

  lemma LeaveTouches(s: State, v: WaiterId, w: WaiterId)
    requires CanLeave(s, v) && w < |s.table|
    ensures w < |DoLeave(s, v).table| && BrowserTouch(s.table[w], DoLeave(s, v).table[w])
    ensures NotInMap(s, w) ==> DoLeave(s, v).table[w].fate == s.table[w].fate
  {
    TakeOutTouches(s, v, w);
    TakeOutTouches(s, v, v);
    hide TakeOut, TakenOut, NotInMap;
  }

  lemma LeaveCloseTouches(s: State, v: WaiterId, w: WaiterId)
    requires CanLeaveClose(s, v) && w < |s.table|
    ensures w < |DoLeaveClose(s, v).table| && BrowserTouch(s.table[w], DoLeaveClose(s, v).table[w])
    ensures DoLeaveClose(s, v).table[w].fate == s.table[w].fate
  {
  }

  lemma ReadingTouches(s: State, a: Action, w: WaiterId)
    requires Can(s, a) && w < |s.table| && (a.WriteTask? || a.Receive? || a.Respond?)
    ensures w < |Do(s, a).table| && BrowserTouch(s.table[w], Do(s, a).table[w])
  {
  }

  lemma SendTaskTouches(s: State, key: Key, w: WaiterId)
    requires w < |s.table|
    ensures w < |DoSendTask(s, key).table|
    ensures var y := DoSendTask(s, key).table[w]; y == s.table[w].(fate := y.fate)
  {
  }

  lemma RuntimeTouches(s: State, a: Action, w: WaiterId)
    requires Can(s, a) && w < |s.table| && ByRuntime(a)
    ensures w < |Do(s, a).table| && RuntimeTouch(s.table[w], Do(s, a).table[w])
  {
    if a.Retire? || a.CloseDone? || a.SweepOne? {
      RemovingTouches(s, a, w);
    } else if a.FailPush? || a.FailSkip? || a.FailClose? {
      FailingTouches(s, a, w);
    } else {
      DeliveringTouches(s, a, w);
    }
    hide Do, Can;
  }

  lemma RemovingTouches(s: State, a: Action, w: WaiterId)
    requires Can(s, a) && w < |s.table| && (a.Retire? || a.CloseDone? || a.SweepOne?)
    ensures w < |Do(s, a).table| && RuntimeTouch(s.table[w], Do(s, a).table[w])
  {
  }

  lemma FailingTouches(s: State, a: Action, w: WaiterId)
    requires Can(s, a) && w < |s.table| && (a.FailPush? || a.FailSkip? || a.FailClose?)
    ensures w < |Do(s, a).table| && RuntimeTouch(s.table[w], Do(s, a).table[w])
  {
  }

  lemma DeliveringTouches(s: State, a: Action, w: WaiterId)
    requires Can(s, a) && w < |s.table| && ByRuntime(a) && !a.Retire? && !a.CloseDone? && !a.SweepOne?
    requires !a.FailPush? && !a.FailSkip? && !a.FailClose?
    ensures w < |Do(s, a).table| && RuntimeTouch(s.table[w], Do(s, a).table[w])
  {
  }

  // Only a task makes a waiter.
  lemma TableStays(s: State, a: Action)
    requires Can(s, a) && !a.SendTask?
    ensures |Do(s, a).table| == |s.table|
  {
  }

  // Nobody else's step changes what its browser keeps of a waiter.
  lemma ReadingStays(s: State, a: Action, w: WaiterId)
    requires Can(s, a) && w < |s.table| && ActorOf(a) != Some(Browser(w))
    ensures w < |Do(s, a).table| && SameReading(s.table[w], Do(s, a).table[w])
  {
    if ByRuntime(a) {
      RuntimeTouches(s, a, w);
      hide Can, Do;
    } else if a.SendTask? {
      SendTaskTouches(s, a.key, w);
    } else {
      ReadingStaysByBrowser(s, a, w);
    }
  }

  lemma ReadingStaysByBrowser(s: State, a: Action, w: WaiterId)
    requires Can(s, a) && w < |s.table| && ActorOf(a) != Some(Browser(w)) && !ByRuntime(a) && !a.SendTask?
    ensures w < |Do(s, a).table| && SameReading(s.table[w], Do(s, a).table[w])
  {
  }

  lemma NameStays(s: State, a: Action, w: WaiterId)
    requires Can(s, a) && w < |s.table|
    ensures w < |Do(s, a).table| && SameName(s.table[w], Do(s, a).table[w])
    ensures s.table[w].done ==> Do(s, a).table[w].done
  {
    if ByRuntime(a) {
      RuntimeTouches(s, a, w);
    } else if a.SendTask? {
      SendTaskTouches(s, a.key, w);
      assert Do(s, a) == DoSendTask(s, a.key);
    } else {
      BrowserTouches(s, a, w);
    }
    hide Can, Do, DoSendTask;
  }

  // The step is not one of a goroutine that is at the waiter.
  predicate FromElsewhere(s: State, a: Action, w: WaiterId) {
    match ActorOf(a)
    case Some(Runtime(c)) => !IsAt(s, c, w)
    case _ => true
  }

  // A waiter's queue and mutex are changed only by goroutines that are at it.
  lemma QueueStays(s: State, a: Action, w: WaiterId)
    requires Can(s, a) && w < |s.table| && FromElsewhere(s, a, w)
    ensures w < |Do(s, a).table| && SameQueue(s.table[w], Do(s, a).table[w])
  {
    if ByRuntime(a) {
      QueueStaysByRuntime(s, a, w);
    } else if a.SendTask? {
      SendTaskTouches(s, a.key, w);
      assert Do(s, a) == DoSendTask(s, a.key);
    } else {
      BrowserTouches(s, a, w);
    }
    hide Can, Do, DoSendTask;
  }

  lemma QueueStaysByRuntime(s: State, a: Action, w: WaiterId)
    requires Can(s, a) && w < |s.table| && FromElsewhere(s, a, w) && ByRuntime(a)
    ensures w < |Do(s, a).table| && SameQueue(s.table[w], Do(s, a).table[w])
  {
    if a.FailPush? || a.FailSkip? || a.FailClose? {
      QueueStaysByFailing(s, a, w);
    } else {
      QueueStaysByOthers(s, a, w);
    }
    hide Can, Do;
  }

  lemma QueueStaysByFailing(s: State, a: Action, w: WaiterId)
    requires Can(s, a) && w < |s.table| && FromElsewhere(s, a, w) && (a.FailPush? || a.FailSkip? || a.FailClose?)
    ensures w < |Do(s, a).table| && SameQueue(s.table[w], Do(s, a).table[w])
  {
  }

  lemma QueueStaysByOthers(s: State, a: Action, w: WaiterId)
    requires Can(s, a) && w < |s.table| && FromElsewhere(s, a, w) && ByRuntime(a)
    requires !a.FailPush? && !a.FailSkip? && !a.FailClose?
    ensures w < |Do(s, a).table| && SameQueue(s.table[w], Do(s, a).table[w])
  {
  }

  // Its `done` is closed only by those, and by one that is about to close it.
  lemma DoneStays(s: State, a: Action, w: WaiterId)
    requires Can(s, a) && w < |s.table| && FromElsewhere(s, a, w)
    requires ActorOf(a).Some? ==> !ClosesNext(s, ActorOf(a).value, w)
    ensures w < |Do(s, a).table| && Do(s, a).table[w].done == s.table[w].done
  {
    if ByRuntime(a) {
      DoneStaysByRuntime(s, a, w);
    } else if a.SendTask? {
      SendTaskTouches(s, a.key, w);
    } else {
      DoneStaysByBrowser(s, a, w);
    }
  }

  lemma DoneStaysByRuntime(s: State, a: Action, w: WaiterId)
    requires Can(s, a) && w < |s.table| && FromElsewhere(s, a, w) && ByRuntime(a)
    requires ActorOf(a).Some? ==> !ClosesNext(s, ActorOf(a).value, w)
    ensures w < |Do(s, a).table| && Do(s, a).table[w].done == s.table[w].done
  {
  }

  lemma DoneStaysByBrowser(s: State, a: Action, w: WaiterId)
    requires Can(s, a) && w < |s.table| && !ByRuntime(a) && !a.SendTask?
    requires ActorOf(a).Some? ==> !ClosesNext(s, ActorOf(a).value, w)
    ensures w < |Do(s, a).table| && Do(s, a).table[w].done == s.table[w].done
  {
  }

  // Only what is in the map can leave it.
  lemma FateStays(s: State, a: Action, w: WaiterId)
    requires Inv(s) && Can(s, a) && w < |s.table| && !s.table[w].fate.Live?
    ensures w < |Do(s, a).table| && Do(s, a).table[w].fate == s.table[w].fate
  {
    InMapIsLive(s, w);
    hide Inv;
    if ByRuntime(a) { FateStaysByRuntime(s, a, w); } else { FateStaysByBrowser(s, a, w); }
  }

  lemma FateStaysByRuntime(s: State, a: Action, w: WaiterId)
    requires NotInMap(s, w) && Can(s, a) && w < |s.table| && ByRuntime(a)
    ensures w < |Do(s, a).table| && Do(s, a).table[w].fate == s.table[w].fate
  {
  }

  lemma FateStaysByBrowser(s: State, a: Action, w: WaiterId)
    requires NotInMap(s, w) && Can(s, a) && w < |s.table| && !ByRuntime(a)
    ensures w < |Do(s, a).table| && Do(s, a).table[w].fate == s.table[w].fate
  {
    if a.Leave? { LeaveTouches(s, a.w, w); }
    if a.LeaveClose? { LeaveCloseTouches(s, a.w, w); }
    if a.SendTask? { SendTaskSpares(s, a.key, w); }
    hide NotInMap, CanLeave, DoLeave, CanLeaveClose, DoLeaveClose, DoSendTask;
  }

  lemma SendTaskSpares(s: State, key: Key, w: WaiterId)
    requires NotInMap(s, w) && w < |s.table|
    ensures w < |DoSendTask(s, key).table| && DoSendTask(s, key).table[w] == s.table[w]
  {
  }

  lemma InMapIsLive(s: State, w: WaiterId)
    requires Inv(s) && w < |s.table|
    ensures s.table[w].fate.Live? <==> s.table[w].key in s.waiters && s.waiters[s.table[w].key] == w
    ensures !s.table[w].fate.Live? ==> NotInMap(s, w)
    ensures forall key :: key in s.waiters && s.waiters[key] == w ==> key == s.table[w].key
  {
    assert WaiterOk(s, w);
    PlaceFacts(s.table[w], ContextOf(s, w));
  }

  // While a sweep holds the registry's lock, nothing leaves the map but by the sweep.
  lemma FateStaysLocked(s: State, a: Action, w: WaiterId)
    requires Can(s, a) && w < |s.table| && s.lock.Some? && !a.SweepOne?
    ensures w < |Do(s, a).table| && Do(s, a).table[w].fate == s.table[w].fate
  {
  }

  // ----- who comes to a waiter -----

  ghost predicate NobodyAt(s: State, w: WaiterId) {
    forall c :: !IsAt(s, c, w)
  }

  // One comes to a waiter only through the map.
  lemma NobodyComes(s: State, a: Action, w: WaiterId)
    requires NotInMap(s, w) && NobodyAt(s, w) && Can(s, a)
    ensures NobodyAt(Do(s, a), w)
  {
    forall c ensures !IsAt(Do(s, a), c, w) {
      if c in s.readers && ActorOf(a) != Some(Runtime(c)) {
        OtherReadersStay(s, a, c);
        assert !IsAt(s, c, w);
      } else {
        ComerTookItFromMap(s, a, c, w);
      }
    }
  }

  lemma ComerTookItFromMap(s: State, a: Action, c: Conn, w: WaiterId)
    requires NotInMap(s, w) && !IsAt(s, c, w) && Can(s, a)
    requires c in s.readers ==> ActorOf(a) == Some(Runtime(c))
    ensures !IsAt(Do(s, a), c, w)
  {
  }

  // A queue only grows behind its reading end.
  lemma SentOnlyGrows(s: State, a: Action, w: WaiterId)
    requires Can(s, a) && w < |s.table|
    ensures w < |Do(s, a).table| && |Do(s, a).table[w].sent| >= |s.table[w].sent|
  {
    if ByRuntime(a) {
      SentOnlyGrowsByRuntime(s, a, w);
    } else {
      QueueStays(s, a, w);
    }
    hide Can, Do;
  }

  lemma SentOnlyGrowsByRuntime(s: State, a: Action, w: WaiterId)
    requires Can(s, a) && w < |s.table| && ByRuntime(a)
    ensures w < |Do(s, a).table| && |Do(s, a).table[w].sent| >= |s.table[w].sent|
  {
  }
}

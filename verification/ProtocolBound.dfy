/**
 What is under way in the gateway comes to an end: without new connections, events, errors and
 tasks only boundedly many steps can be taken, and then every chat that has its final event
 has ended, unless it is stuck.
 */
module ProtocolBound {
  import opened Wrappers
  import opened Envelopes
  import opened Protocol
  import opened ProtocolInvariant
  import opened ProtocolDelivery
  import opened ProtocolProgress
  import opened ProtocolFrame
  import opened ProtocolStuck

  // ----- the steps that are still to be taken -----

  // By a connection's goroutine; an event it puts on a queue costs a browser two more.
  function ReaderCost(pc: Pc): nat {
    match pc
    case Connected => 2
    case Reading => 0
    case Dispatching(_) => 7
    case Locking(_, _) => 6
    case Selecting(_, _) => 5
    case Retiring(_) => 2
    case Cancelling(_) => 1
    case Departing => 2
    case Sweeping(_) => 1
    case FailLocking(_, _) => 6
    case FailSelecting(_, _) => 5
    case FailClosing(_, _) => 2
    case Closed => 0
  }

  function ConsumerCost(c: Consumer): nat {
    match c
    case Sending => 5
    case Receiving => 3
    case Writing(_) => 4
    case Leaving => 2
    case Cancelling(_) => 1
    case Gone => 0
  }

  function WaiterCost(x: Waiter): nat {
    ConsumerCost(x.consumer) + if x.taken <= |x.sent| then 2 * (|x.sent| - x.taken) else 0
  }

  function TableCost(table: seq<Waiter>): nat {
    if table == [] then 0 else TableCost(table[..|table| - 1]) + WaiterCost(table[|table| - 1])
  }

  ghost function ReadersCost(readers: map<Conn, Reader>): nat {
    if readers == map[] then 0
    else
      var c :| c in readers;
      ReaderCost(readers[c].pc) + ReadersCost(readers - {c})
  }

  // Each entry of the map may cost a sweep six steps.
  ghost function Steps(s: State): nat {
    ReadersCost(s.readers) + TableCost(s.table) + 6 * |s.waiters|
  }

  lemma {:induction false} ReadersCostSplits(readers: map<Conn, Reader>, c: Conn)
    requires c in readers
    ensures ReadersCost(readers) == ReaderCost(readers[c].pc) + ReadersCost(readers - {c})
  {
    hide ReaderCost;
    var d :| d in readers && ReadersCost(readers) == ReaderCost(readers[d].pc) + ReadersCost(readers - {d});
    if d != c {
      ReadersCostSplits(readers - {d}, c);
      ReadersCostSplits(readers - {c}, d);
      assert readers - {d} - {c} == readers - {c} - {d};
    }
  }

  lemma ReadersCostOne(before: map<Conn, Reader>, after: map<Conn, Reader>, c: Conn)
    requires c in before && c in after && after == before[c := after[c]]
    ensures ReadersCost(after) - ReadersCost(before) == ReaderCost(after[c].pc) - ReaderCost(before[c].pc)
  {
    ReadersCostSplits(before, c);
    ReadersCostSplits(after, c);
    assert after - {c} == before - {c};
  }

  lemma {:induction false} TableCostOne(before: seq<Waiter>, after: seq<Waiter>, i: nat)
    requires |before| == |after|
    requires forall j :: 0 <= j < |before| && j != i ==> WaiterCost(after[j]) == WaiterCost(before[j])
    ensures TableCost(after) - TableCost(before) ==
      if i < |before| then WaiterCost(after[i]) - WaiterCost(before[i]) else 0
  {
    hide WaiterCost;
    if before != [] {
      TableCostOne(before[..|before| - 1], after[..|after| - 1], i);
    }
  }

  // ----- every step of its own takes a goroutine nearer to its rest -----

  lemma OthersCostTheSame(s: State, a: Action, w: WaiterId)
    requires Can(s, a) && w < |s.table| && FromElsewhere(s, a, w) && ActorOf(a) != Some(Browser(w))
    ensures w < |Do(s, a).table| && WaiterCost(Do(s, a).table[w]) == WaiterCost(s.table[w])
  {
    ReadingStays(s, a, w);
    QueueStays(s, a, w);
    hide Can, Do;
  }

  lemma BrowserCounts(s: State, a: Action)
    requires Inv(s) && Can(s, a) && Internal(a) && !ByRuntime(a)
    ensures a.w < |s.table| == |Do(s, a).table|
    ensures WaiterCost(Do(s, a).table[a.w]) < WaiterCost(s.table[a.w])
    ensures Do(s, a).readers == s.readers && |Do(s, a).waiters| <= |s.waiters|
  {
    WaiterFacts(s, a.w);
    hide Inv, LinksOk, PlaceOk, SweepOk, ContextOf;
    if a.Leave? { LeaveCounts(s, a.w); } else { ReadingCounts(s, a); }
  }

  lemma ReadingCounts(s: State, a: Action)
    requires Can(s, a) && Internal(a) && !ByRuntime(a) && !a.Leave?
    requires a.w < |s.table| && s.table[a.w].taken <= |s.table[a.w].sent|
    ensures |Do(s, a).table| == |s.table|
    ensures WaiterCost(Do(s, a).table[a.w]) < WaiterCost(s.table[a.w])
    ensures Do(s, a).readers == s.readers && Do(s, a).waiters == s.waiters
  {
    if a.LeaveClose? { LeaveCloseTouches(s, a.w, a.w); }
  }

  lemma LeaveCounts(s: State, v: WaiterId)
    requires CanLeave(s, v)
    ensures |DoLeave(s, v).table| == |s.table|
    ensures WaiterCost(DoLeave(s, v).table[v]) < WaiterCost(s.table[v])
    ensures DoLeave(s, v).readers == s.readers && |DoLeave(s, v).waiters| <= |s.waiters|
  {
    TakeOutTouches(s, v, v);
    TakeOutShrinks(s, v);
    hide TakenOut;
  }

  lemma TakeOutShrinks(s: State, v: WaiterId)
    requires v < |s.table|
    ensures |TakeOut(s, v).table| == |s.table| && TakeOut(s, v).readers == s.readers
    ensures |TakeOut(s, v).waiters| <= |s.waiters|
  {
    FewerKeys(s.waiters, s.table[v].key);
  }

  lemma FewerKeys(m: map<Key, WaiterId>, key: Key)
    ensures |m - {key}| == |m| - if key in m then 1 else 0
  {
    assert (m - {key}).Keys == m.Keys - {key};
  }

  // The waiter that gets one event more, if any.
  function Queues(s: State, a: Action): Option<WaiterId>
    requires Can(s, a)
  {
    if a.Push? || a.FailPush? then Some(s.readers[a.c].pc.w) else None
  }

  // What the step costs its own goroutine and the map, and what the queue gets.
  ghost predicate Cheaper(s: State, t: State, c: Conn, queues: bool) {
    && c in s.readers && c in t.readers
    && ReaderCost(t.readers[c].pc) + 6 * |t.waiters| + (if queues then 2 else 0)
       < ReaderCost(s.readers[c].pc) + 6 * |s.waiters|
  }

  lemma RuntimeCounts(s: State, a: Action)
    requires Inv(s) && Can(s, a) && Internal(a) && ByRuntime(a)
    ensures Cheaper(s, Do(s, a), a.c, Queues(s, a).Some?)
  {
    if a.Retire? {
      RetireCounts(s, a.c);
    } else if a.SweepOne? {
      SweepOneCounts(s, a.c, a.key);
    } else {
      OthersCount(s, a);
    }
    hide Inv, CanRetire, DoRetire, CanSweepOne, DoSweepOne, Cheaper;
  }

  lemma RetireCounts(s: State, c: Conn)
    requires CanRetire(s, c)
    ensures Cheaper(s, DoRetire(s, c), c, false)
  {
    TakeOutShrinks(s, s.readers[c].pc.w);
    hide TakeOut, TakenOut;
  }

  lemma SweepOneCounts(s: State, c: Conn, key: Key)
    requires CanSweepOne(s, c, key)
    ensures Cheaper(s, DoSweepOne(s, c, key), c, false)
  {
    FewerKeys(s.waiters, key);
  }

  lemma OthersCount(s: State, a: Action)
    requires Inv(s) && Can(s, a) && Internal(a) && ByRuntime(a) && !a.Retire? && !a.SweepOne?
    ensures Cheaper(s, Do(s, a), a.c, Queues(s, a).Some?)
  {
    hide Inv;
    if a.FailPush? || a.FailSkip? || a.FailClose? || a.SweepEnd? { SweepingCounts(s, a); } else { DeliveringCounts(s, a); }
    hide Can, Do, Cheaper, Queues;
  }

  lemma SweepingCounts(s: State, a: Action)
    requires Can(s, a) && (a.FailPush? || a.FailSkip? || a.FailClose? || a.SweepEnd?)
    ensures Cheaper(s, Do(s, a), a.c, Queues(s, a).Some?)
  {
  }

  lemma DeliveringCounts(s: State, a: Action)
    requires Can(s, a) && Internal(a) && ByRuntime(a) && !a.Retire? && !a.SweepOne?
    requires !a.FailPush? && !a.FailSkip? && !a.FailClose? && !a.SweepEnd?
    ensures Cheaper(s, Do(s, a), a.c, Queues(s, a).Some?)
  {
    if a.LockWaiter? {
      LockingCounts(s, a);
    } else if a.Push? || a.Drop? {
      SelectingCounts(s, a);
    } else if a.Register? || a.Unregister? {
      RegisteringCounts(s, a);
    } else {
      ElseCounts(s, a);
    }
    hide Can, Do, Cheaper, Queues;
  }

  lemma LockingCounts(s: State, a: Action)
    requires Can(s, a) && a.LockWaiter?
    ensures Cheaper(s, Do(s, a), a.c, Queues(s, a).Some?)
  {
  }

  lemma SelectingCounts(s: State, a: Action)
    requires Can(s, a) && (a.Push? || a.Drop?)
    ensures Cheaper(s, Do(s, a), a.c, Queues(s, a).Some?)
  {
  }

  lemma RegisteringCounts(s: State, a: Action)
    requires Can(s, a) && (a.Register? || a.Unregister?)
    ensures Cheaper(s, Do(s, a), a.c, Queues(s, a).Some?)
  {
  }

  lemma ElseCounts(s: State, a: Action)
    requires Can(s, a) && (a.Snapshot? || a.CloseDone?)
    ensures Cheaper(s, Do(s, a), a.c, Queues(s, a).Some?)
  {
  }

  lemma RuntimeMovesOneReader(s: State, a: Action)
    requires Can(s, a) && Internal(a) && ByRuntime(a)
    ensures a.c in s.readers && a.c in Do(s, a).readers && |Do(s, a).table| == |s.table|
    ensures Do(s, a).readers == s.readers[a.c := Do(s, a).readers[a.c]]
  {
  }

  // Nobody's queue changes but the one that gets an event.
  lemma QueueGrows(s: State, a: Action, w: WaiterId)
    requires Inv(s) && Can(s, a) && Internal(a) && ByRuntime(a) && w < |s.table| == |Do(s, a).table|
    ensures WaiterCost(Do(s, a).table[w]) == WaiterCost(s.table[w]) + if Queues(s, a) == Some(w) then 2 else 0
  {
    WaiterFacts(s, w);
    ReadingStays(s, a, w);
    hide Inv, LinksOk, PlaceOk, SweepOk, ContextOf;
    SentGrows(s, a, w);
    hide Can, Do;
  }

  lemma SentGrows(s: State, a: Action, w: WaiterId)
    requires Can(s, a) && Internal(a) && ByRuntime(a) && w < |s.table| == |Do(s, a).table|
    ensures |Do(s, a).table[w].sent| == |s.table[w].sent| + if Queues(s, a) == Some(w) then 1 else 0
  {
    if a.Retire? { TakeOutTouches(s, s.readers[a.c].pc.w, w); }
  }

  lemma RuntimeStepCounts(s: State, a: Action)
    requires Inv(s) && Can(s, a) && Internal(a) && ByRuntime(a)
    ensures Steps(Do(s, a)) < Steps(s)
  {
    hide Can, Do, Inv, WaiterCost, ReaderCost, ReadersCost, TableCost, Queues;
    RuntimeMovesOneReader(s, a);
    RuntimeCounts(s, a);
    ReadersCostOne(s.readers, Do(s, a).readers, a.c);
    QueuesCount(s, a);
  }

  lemma QueuesCount(s: State, a: Action)
    requires Inv(s) && Can(s, a) && Internal(a) && ByRuntime(a) && |Do(s, a).table| == |s.table|
    ensures TableCost(Do(s, a).table) <= TableCost(s.table) + if Queues(s, a).Some? then 2 else 0
  {
    hide Can, Do, Inv, WaiterCost, TableCost, Queues;
    var t := Do(s, a);
    var grown := Queues(s, a);
    forall w | 0 <= w < |s.table|
      ensures WaiterCost(t.table[w]) == WaiterCost(s.table[w]) + if grown == Some(w) then 2 else 0
    {
      QueueGrows(s, a, w);
    }
    TableCostOne(s.table, t.table, grown.GetOr(|s.table|));
  }

  lemma BrowserStepCounts(s: State, a: Action)
    requires Inv(s) && Can(s, a) && Internal(a) && !ByRuntime(a)
    ensures Steps(Do(s, a)) < Steps(s)
  {
    var t := Do(s, a);
    hide Can, Do, Inv, WaiterCost, ReaderCost, ReadersCost, TableCost;
    BrowserCounts(s, a);
    forall w | 0 <= w < |s.table| && w != a.w ensures WaiterCost(t.table[w]) == WaiterCost(s.table[w]) {
      OthersCostTheSame(s, a, w);
    }
    TableCostOne(s.table, t.table, a.w);
  }

  lemma EveryStepCounts(s: State, a: Action)
    requires Inv(s) && Can(s, a) && Internal(a)
    ensures Steps(Do(s, a)) < Steps(s)
  {
    hide Can, Do, Inv, Steps;
    if ByRuntime(a) { RuntimeStepCounts(s, a); } else { BrowserStepCounts(s, a); }
  }

  // Whatever order they come in, at most Steps(s) steps can be taken without anything from
  // outside.
  lemma {:induction false} NoRunIsLonger(s: State, run: seq<Action>)
    requires Inv(s) && Exec(s, run).Some?
    requires forall i :: 0 <= i < |run| ==> Internal(run[i])
    ensures |run| <= Steps(s)
    decreases |run|
  {
    hide Inv, Steps;
    if run != [] {
      EveryStepCounts(s, run[0]);
      StepKeeps(s, run[0]);
      NoRunIsLonger(Do(s, run[0]), run[1..]);
    }
  }

  // ----- every chat that has its final event ends -----

  // Its connection dispatched a final event for it, or a sweep hit it.
  ghost predicate HasItsEnd(s: State, w: WaiterId)
    requires w < |s.table|
  {
    !NoTerminal(Offered(s, w)) || s.table[w].fate.Swept?
  }

  // Where no goroutine can take a step of its own, a chat that has its end and was not displaced
  // by another one has ended, and its browser has seen its end or given up; unless the browser
  // or its connection's reader is stuck.
  lemma SettledChatHasEnded(s: State, w: WaiterId)
    requires Reachable(s) && Settled(s) && w < |s.table| && HasItsEnd(s, w) && !Displaced(s, w)
    requires !Stuck(s, Browser(w)) && !Stuck(s, Runtime(s.table[w].conn))
    ensures s.table[w].consumer.Gone?
    ensures s.table[w].quit || EndsWithItsTerminal(s.table[w].written)
  {
    ReachableInv(s);
    SettledIff(s);
    assert !Busy(s, Browser(w)) && !Busy(s, Runtime(s.table[w].conn));
    WaiterFacts(s, w);
    if s.table[w].consumer.Receiving? { NothingMoreToRead(s, w); }
    hide Inv, LinksOk, Settled, Stuck, Reachable;
  }

  lemma NothingMoreToRead(s: State, w: WaiterId)
    requires Reachable(s) && Settled(s) && w < |s.table| && HasItsEnd(s, w) && !Displaced(s, w)
    requires !Busy(s, Runtime(s.table[w].conn))
    ensures !(s.table[w].consumer.Receiving? && s.table[w].taken == |s.table[w].sent|)
  {
    ReachableInv(s);
    WaiterFacts(s, w);
    var x := s.table[w];
    if x.consumer.Receiving? && x.taken == |x.sent| {
      assert x.written == Events(x.sent);
      NotFailing(s, w);
      NothingIsLost(s, w);
      CutIsPrefix(Offered(s, w));
      CutIsPrefix(Events(x.sent));
      if x.fate.Swept? {
        SweptGetsExactlyOneError(s, w);
        EventsHaveTerminal(x);
      }
    }
    hide Inv, Reachable, Settled, LocalOk, LinksOk;
  }

  // No sweep is at a waiter with an empty queue, when nobody can step.
  lemma NotFailing(s: State, w: WaiterId)
    requires Reachable(s) && Settled(s) && w < |s.table| && |s.table[w].sent| == s.table[w].taken
    ensures ContextOf(s, w).phase.Untouched? && (s.table[w].fate.Swept? ==> s.table[w].done)
  {
    ReachableInv(s);
    WaiterFacts(s, w);
    if !ContextOf(s, w).phase.Untouched? {
      var a := SweepAtEmptyQueue(s, w);
    }
    hide Reachable, Settled, LinksOk, Inv;
  }

  lemma SweepAtEmptyQueue(s: State, w: WaiterId) returns (a: Action)
    requires Inv(s) && w < |s.table| && |s.table[w].sent| == s.table[w].taken
    requires !ContextOf(s, w).phase.Untouched?
    ensures Can(s, a) && Internal(a)
  {
    var c := s.lock.value;
    ReaderFacts(s, c);
    var pc := s.readers[c].pc;
    if pc.FailClosing? {
      a := FailClose(c);
    } else if pc.FailSelecting? {
      a := FailPush(c);
    } else if s.table[w].holder.None? {
      a := LockWaiter(c);
    } else {
      var d := s.table[w].holder.value;
      HolderDelivers(s, c, d);
      a := Push(d);
    }
  }
}

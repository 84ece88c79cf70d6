/**
 internal/gateway/registry.go in its own form: waiter objects shared by reference, and a
 registry whose two maps are updated in place. One method is one stretch of code between
 taking and releasing a mutex; its contract says that the objects move exactly as the
 step system of module Protocol does, so that the theorems proved there hold of them.
 */
module GatewayRegistry {
  import opened Wrappers
  import opened Envelopes
  import opened Protocol
  import ProtocolDelivery

  class Waiter {
    var events: seq<Envelope>
    var done: bool

    constructor ()
      ensures events == [] && !done
    {
      events := [];
      done := false;
    }

    // registry.go:34-36.
    method Cancel()
      modifies this`done
      ensures done
    {
      done := true;
    }

    // registry.go:38-47, with w.mu held: the select waits until one of its cases is ready
    // and takes either one when both are.
    method Deliver(event: Envelope) returns (sent: bool)
      requires done || |events| < QUEUE_CAPACITY
      modifies this`events
      ensures sent ==> old(|events|) < QUEUE_CAPACITY && events == old(events) + [event]
      ensures !sent ==> done && events == old(events)
    {
      if {
        case done =>
          sent := false;
        case |events| < QUEUE_CAPACITY =>
          events := events + [event];
          sent := true;
      }
    }

    // server.go:1769.
    method Receive() returns (event: Envelope)
      requires events != []
      modifies this`events
      ensures event == old(events)[0] && events == old(events)[1..]
    {
      event := events[0];
      events := events[1..];
    }
  }

  class RuntimeRegistry {
    var runtimes: map<string, Conn>
    var waiters: map<Key, Waiter>
    // Every waiter ever made, in the order of making: the objects behind the WaiterIds.
    ghost var arena: seq<Waiter>

    // The buffer of a channel.
    ghost function Buffer(x: Protocol.Waiter): seq<Envelope>
      requires x.taken <= |x.sent|
    {
      Events(x.sent)[x.taken..]
    }

    // The objects are in the state s.
    ghost predicate Represents(s: State)
      reads this, arena
    {
      && runtimes == s.runtimes
      && |arena| == |s.table|
      && (forall i, j :: 0 <= i < j < |arena| ==> arena[i] != arena[j])
      && (forall i :: 0 <= i < |arena| ==>
            && s.table[i].taken <= |s.table[i].sent|
            && arena[i].events == Buffer(s.table[i])
            && arena[i].done == s.table[i].done)
      && waiters.Keys == s.waiters.Keys
      && (forall key :: key in waiters ==>
            s.waiters[key] < |arena| && waiters[key] == arena[s.waiters[key]])
    }

    constructor ()
      ensures Represents(INITIAL)
    {
      runtimes := map[];
      waiters := map[];
      arena := [];
    }

    // registry.go:71-75. The caller goes on with a sweep when the answer is true.
    method Register(agentId: string, conn: Conn, ghost s: State) returns (replacing: bool)
      requires Represents(s) && CanRegister(s, conn) && s.readers[conn].agentId == agentId
      modifies this`runtimes
      ensures Represents(DoRegister(s, conn))
      ensures replacing <==> DoRegister(s, conn).lock == Some(conn)
    {
      replacing := agentId in runtimes && runtimes[agentId] != conn;
      runtimes := runtimes[agentId := conn];
    }

    // registry.go:82-86. The caller goes on with a sweep when the answer is true.
    method Unregister(agentId: string, conn: Conn, ghost s: State) returns (matching: bool)
      requires Represents(s) && CanUnregister(s, conn) && s.readers[conn].agentId == agentId
      modifies this`runtimes
      ensures Represents(DoUnregister(s, conn))
      ensures matching <==> DoUnregister(s, conn).lock == Some(conn)
    {
      matching := agentId in runtimes && runtimes[agentId] == conn;
      if matching {
        runtimes := runtimes - {agentId};
      }
    }

    // registry.go:91-100.
    method SendTask(key: Key, ghost s: State) returns (w: Waiter?)
      requires Represents(s) && s.lock.None?
      modifies this`waiters, this`arena
      ensures Represents(DoSendTask(s, key))
      ensures w == null <==> key.agentId !in runtimes
      ensures w != null ==> fresh(w) && arena == old(arena) + [w] && waiters[key] == w
    {
      w := null;
      if key.agentId in runtimes {
        w := new Waiter();
        waiters := waiters[key := w];
        arena := arena + [w];
      }
    }

    // registry.go:115-125: the waiter to deliver to, if the event is not to be dropped.
    method Snapshot(agentId: string, conn: Conn, event: Envelope, ghost s: State) returns (w: Waiter?)
      requires Represents(s) && CanSnapshot(s, conn)
      requires s.readers[conn] == Reader(agentId, Dispatching(event))
      ensures Represents(DoSnapshot(s, conn))
      ensures var pc := DoSnapshot(s, conn).readers[conn].pc;
        if w == null then pc == Reading
        else pc.Locking? && pc.event == event && pc.w < |arena| && arena[pc.w] == w
    {
      var key := Key(agentId, event.messageId);
      w := null;
      if agentId in runtimes && runtimes[agentId] == conn && key in waiters {
        w := waiters[key];
      }
    }

    // deliver of connection conn's goroutine, and what Dispatch does about the answer.
    method Deliver(w: Waiter, event: Envelope, conn: Conn, ghost s: State) returns (sent: bool)
      requires Represents(s) && (CanPush(s, conn) || CanDrop(s, conn))
      requires s.readers[conn].pc.event == event && arena[s.readers[conn].pc.w] == w
      modifies w
      ensures if sent then CanPush(s, conn) && Represents(DoPush(s, conn))
              else CanDrop(s, conn) && Represents(DoDrop(s, conn))
    {
      ghost var id := s.readers[conn].pc.w;
      ghost var x := s.table[id];
      sent := w.Deliver(event);
      if sent {
        assert Events(x.sent + [Item(event, false)])[x.taken..] == Buffer(x) + [event];
      }
    }

    // registry.go:145-148, on behalf of the waiter `remover`.
    method TakeOut(key: Key, ghost remover: WaiterId, ghost s: State) returns (w: Waiter?)
      requires Represents(s) && remover < |s.table| && s.table[remover].key == key
      modifies this`waiters
      ensures Represents(Protocol.TakeOut(s, remover))
      ensures var target := TakenOut(s, remover);
        if w == null then target.None? else target.Some? && arena[target.value] == w
    {
      w := if key in waiters then waiters[key] else null;
      waiters := waiters - {key};
    }

    // registry.go:149-151.
    method CloseDone(w: Waiter?, ghost target: Option<WaiterId>, ghost s: State)
      requires Represents(s)
      requires if w == null then target.None? else target.Some? && target.value < |arena| && arena[target.value] == w
      modifies w
      ensures Represents(CloseTarget(s, target))
    {
      if w != null {
        w.Cancel();
      }
    }

    // registry.go:135-139: one turn of failWaitersLocked's loop, up to the call of fail.
    method SweepOne(conn: Conn, key: Key, ghost s: State) returns (w: Waiter)
      requires Represents(s) && CanSweepOne(s, conn, key)
      modifies this`waiters
      ensures Represents(DoSweepOne(s, conn, key))
      ensures arena[DoSweepOne(s, conn, key).readers[conn].pc.w] == w
    {
      w := waiters[key];
      waiters := waiters - {key};
    }

    // fail (registry.go:49-58), with w.mu held, while `done` is open.
    method Fail(w: Waiter, event: Envelope, conn: Conn, ghost s: State)
      requires Represents(s) && CanFailPush(s, conn)
      requires !s.table[s.readers[conn].pc.w].done && arena[s.readers[conn].pc.w] == w
      requires event == SyntheticError(s.table[s.readers[conn].pc.w].key, s.readers[conn].pc.resume)
      modifies w
      ensures CanFailClose(DoFailPush(s, conn), conn)
      ensures Represents(DoFailClose(DoFailPush(s, conn), conn))
      ensures w.done && w.events == old(w.events) + [event]
      ensures event.typ.Error? && event.payload.text in {Some(ProtocolDelivery.REPLACED), Some(ProtocolDelivery.DISCONNECTED)}
    {
      ghost var x := s.table[s.readers[conn].pc.w];
      var sent := w.Deliver(event);
      assert Events(x.sent + [Item(event, true)])[x.taken..] == Buffer(x) + [event];
      w.Cancel();
    }

    // The head of the browser's range loop.
    method Receive(w: Waiter, ghost id: WaiterId, ghost s: State) returns (event: Envelope)
      requires Represents(s) && CanReceive(s, id) && arena[id] == w
      modifies w
      ensures Represents(DoReceive(s, id))
      ensures DoReceive(s, id).table[id].consumer == Writing(event)
    {
      event := w.Receive();
    }
  }
}

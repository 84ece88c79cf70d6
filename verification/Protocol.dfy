/**
 The chat-task protocol as a step system: the gateway registry
 (internal/gateway/registry.go) together with the two connection handlers that
 drive it (handleRuntimeWebSocket and handleWebSocket in internal/api/server.go).

 One action is one atomic piece of one goroutine. The code is split exactly where
 it takes or releases `r.mu` or `w.mu`, and where it blocks. Only a sweep
 (failWaitersLocked) holds `r.mu` across several pieces, so `lock` names the
 connection whose goroutine is sweeping; every other critical section of `r.mu`
 is one action that needs `lock` to be free.
 */
module Protocol {
  import opened Wrappers
  import opened Envelopes

  // The identity of a websocket connection, standing for the *websocket.Conn pointer.
  type Conn = nat
  // A waiter's index in `table`, standing for the *waiter pointer.
  type WaiterId = nat

  const QUEUE_CAPACITY: nat := 16

  datatype Key = Key(agentId: string, messageId: string)

  // One element of a waiter's channel. `synthetic` is history: it tells the errors
  // made by failWaitersLocked from the events of the runtime.
  datatype Item = Item(event: Envelope, synthetic: bool)

  // History: how a waiter left the `waiters` map, if it did.
  datatype Fate =
    | Live
    | Overwritten(successor: WaiterId)  // by a SendTask with the same key
    | Removed(remover: WaiterId)  // by a removeWaiter call made on behalf of `remover`
    | Swept                    // by failWaitersLocked

  // Where the browser goroutine that owns a waiter is.
  datatype Consumer =
    | Sending                        // writing the task to the runtime connection
    | Receiving                      // at the head of the range loop
    | Writing(event: Envelope)       // writing one response to the browser
    | Leaving                        // in removeWaiter, about to lock r.mu
    | Cancelling(target: Option<WaiterId>)  // in removeWaiter, r.mu released
    | Gone

  // A `sent` channel is kept whole: its buffer is what lies at `taken` and beyond.
  datatype Waiter = Waiter(
    key: Key,
    done: bool,
    sent: seq<Item>,
    taken: nat,
    holder: Option<Conn>,      // whose goroutine holds w.mu
    consumer: Consumer,
    written: seq<Envelope>,    // events whose responses reached the browser
    quit: bool,                // history: the browser goroutine gave up on a failed write
    conn: Conn,                // history: the agent's connection at insertion
    born: nat,                 // history: length of the log at insertion
    fate: Fate)                // history

  // Where the goroutine of a runtime connection is. `resume` tells a sweep made by
  // Register (which goes on to read) from one made by Unregister (which ends).
  datatype Pc =
    | Connected
    | Reading
    | Dispatching(event: Envelope)
    | Locking(w: WaiterId, event: Envelope)
    | Selecting(w: WaiterId, event: Envelope)
    | Retiring(w: WaiterId)
    | Cancelling(target: Option<WaiterId>)
    | Departing
    | Sweeping(resume: bool)
    | FailLocking(w: WaiterId, resume: bool)
    | FailSelecting(w: WaiterId, resume: bool)
    | FailClosing(w: WaiterId, resume: bool)
    | Closed

  datatype Reader = Reader(agentId: string, pc: Pc)

  // History: Dispatch ran its critical section for this event of this connection.
  datatype Dispatched = Dispatched(conn: Conn, event: Envelope)

  datatype State = State(
    runtimes: map<string, Conn>,
    waiters: map<Key, WaiterId>,
    table: seq<Waiter>,
    lock: Option<Conn>,
    readers: map<Conn, Reader>,
    log: seq<Dispatched>)

  const INITIAL := State(map[], map[], [], None, map[], [])

  datatype Action =
    // the goroutine of runtime connection c
    | Connect(c: Conn, agentId: string)
    | Register(c: Conn)
    | ReadEvent(c: Conn, event: Envelope)
    | ReadError(c: Conn)
    | Snapshot(c: Conn)
    | LockWaiter(c: Conn)
    | Push(c: Conn)
    | Drop(c: Conn)
    | Retire(c: Conn)
    | CloseDone(c: Conn)
    | Unregister(c: Conn)
    | SweepOne(c: Conn, key: Key)
    | SweepEnd(c: Conn)
    | FailPush(c: Conn)
    | FailSkip(c: Conn)
    | FailClose(c: Conn)
    // browser goroutines
    | SendTask(key: Key)
    | WriteTask(w: WaiterId, ok: bool)
    | Receive(w: WaiterId)
    | Respond(w: WaiterId, ok: bool)
    | Leave(w: WaiterId)
    | LeaveClose(w: WaiterId)

  // Everything but the arrival of connections, events, errors and tasks from outside.
  predicate Internal(a: Action) {
    !a.Connect? && !a.ReadEvent? && !a.ReadError? && !a.SendTask?
  }

  // ----- the pieces of a state -----

  predicate Full(x: Waiter) {
    |x.sent| >= x.taken + QUEUE_CAPACITY
  }

  function Events(items: seq<Item>): (events: seq<Envelope>)
    ensures |events| == |items|
  {
    seq(|items|, i requires 0 <= i < |items| => items[i].event)
  }

  function EventKey(e: Envelope): Key {
    Key(e.agentId, e.messageId)
  }

  // The error that failWaitersLocked sends (registry.go:140).
  function SyntheticError(key: Key, resume: bool): Envelope {
    var reason := if resume then "runtime connection replaced" else "runtime disconnected";
    Envelope(Error, key.agentId, "", key.messageId, 0, Payload(Some(reason), None))
  }

  function NewWaiter(key: Key, conn: Conn, born: nat): Waiter {
    Waiter(key, false, [], 0, None, Sending, [], false, conn, born, Live)
  }

  function SetPc(s: State, c: Conn, pc: Pc): State
    requires c in s.readers
  {
    s.(readers := s.readers[c := s.readers[c].(pc := pc)])
  }

  function SetWaiter(s: State, w: WaiterId, x: Waiter): State
    requires w < |s.table|
  {
    s.(table := s.table[w := x])
  }

  function PcOf(s: State, c: Conn): Pc {
    if c in s.readers then s.readers[c].pc else Closed
  }

  predicate KnownWaiter(s: State, w: WaiterId) {
    w < |s.table|
  }

  // ----- what removeWaiter does -----

  // registry.go:145-148: the waiter now under the key leaves the map, whoever put it there.
  function TakeOut(s: State, w: WaiterId): State
    requires w < |s.table|
  {
    var key := s.table[w].key;
    if key in s.waiters && s.waiters[key] < |s.table| then
      var t := s.waiters[key];
      s.(waiters := s.waiters - {key}, table := s.table[t := s.table[t].(fate := Removed(w))])
    else
      s.(waiters := s.waiters - {key})
  }

  function TakenOut(s: State, w: WaiterId): Option<WaiterId>
    requires w < |s.table|
  {
    var key := s.table[w].key;
    if key in s.waiters then Some(s.waiters[key]) else None
  }

  // registry.go:149-151.
  function CloseTarget(s: State, target: Option<WaiterId>): State {
    if target.Some? && target.value < |s.table| then
      SetWaiter(s, target.value, s.table[target.value].(done := true))
    else s
  }

  // ----- the goroutine of a runtime connection: when each step can run, what it does -----

  predicate At(s: State, c: Conn) {
    c in s.readers
  }

  predicate CanConnect(s: State, c: Conn) {
    c !in s.readers
  }

  function DoConnect(s: State, c: Conn, agentId: string): State {
    s.(readers := s.readers[c := Reader(agentId, Connected)])
  }

  predicate CanRegister(s: State, c: Conn) {
    At(s, c) && s.readers[c].pc.Connected? && s.lock.None?
  }

  // registry.go:70-79. The previous connection's goroutine only learns of the Close
  // through a later ReadError.
  function DoRegister(s: State, c: Conn): State
    requires CanRegister(s, c)
  {
    var a := s.readers[c].agentId;
    var replacing := a in s.runtimes && s.runtimes[a] != c;
    var s1 := s.(runtimes := s.runtimes[a := c]);
    if replacing then SetPc(s1.(lock := Some(c)), c, Sweeping(true)) else SetPc(s1, c, Reading)
  }

  predicate CanRead(s: State, c: Conn) {
    At(s, c) && s.readers[c].pc.Reading?
  }

  // server.go:1810-1817 and registry.go:114-117.
  function DoReadEvent(s: State, c: Conn, e: Envelope): State
    requires CanRead(s, c)
  {
    if e.agentId != s.readers[c].agentId then s else SetPc(s, c, Dispatching(e))
  }

  // server.go:1812-1816.
  function DoReadError(s: State, c: Conn): State
    requires CanRead(s, c)
  {
    SetPc(s, c, Departing)
  }

  predicate CanSnapshot(s: State, c: Conn) {
    At(s, c) && s.readers[c].pc.Dispatching? && s.lock.None?
  }

  // registry.go:118-125.
  function DoSnapshot(s: State, c: Conn): State
    requires CanSnapshot(s, c)
  {
    var a := s.readers[c].agentId;
    var e := s.readers[c].pc.event;
    var key := Key(a, e.messageId);
    var s1 := s.(log := s.log + [Dispatched(c, e)]);
    if a in s.runtimes && s.runtimes[a] == c && key in s.waiters
    then SetPc(s1, c, Locking(s.waiters[key], e))
    else SetPc(s1, c, Reading)
  }

  // w.mu.Lock() in deliver and in fail.
  predicate CanLockWaiter(s: State, c: Conn) {
    At(s, c) &&
    var pc := s.readers[c].pc;
    (pc.Locking? || pc.FailLocking?) && KnownWaiter(s, pc.w) && s.table[pc.w].holder.None?
  }

  function DoLockWaiter(s: State, c: Conn): State
    requires CanLockWaiter(s, c)
  {
    var pc := s.readers[c].pc;
    var s1 := SetWaiter(s, pc.w, s.table[pc.w].(holder := Some(c)));
    SetPc(s1, c, if pc.Locking? then Selecting(pc.w, pc.event) else FailSelecting(pc.w, pc.resume))
  }

  predicate CanPush(s: State, c: Conn) {
    At(s, c) && s.readers[c].pc.Selecting? && KnownWaiter(s, s.readers[c].pc.w)
    && !Full(s.table[s.readers[c].pc.w])
  }

  // registry.go:44-45 and 129-131.
  function DoPush(s: State, c: Conn): State
    requires CanPush(s, c)
  {
    var pc := s.readers[c].pc;
    var x := s.table[pc.w];
    var s1 := SetWaiter(s, pc.w, x.(sent := x.sent + [Item(pc.event, false)], holder := None));
    SetPc(s1, c, if IsTerminal(pc.event) then Retiring(pc.w) else Reading)
  }

  predicate CanDrop(s: State, c: Conn) {
    At(s, c) && s.readers[c].pc.Selecting? && KnownWaiter(s, s.readers[c].pc.w)
    && s.table[s.readers[c].pc.w].done
  }

  // registry.go:42-43 and 126-128.
  function DoDrop(s: State, c: Conn): State
    requires CanDrop(s, c)
  {
    var pc := s.readers[c].pc;
    SetPc(SetWaiter(s, pc.w, s.table[pc.w].(holder := None)), c, Reading)
  }

  predicate CanRetire(s: State, c: Conn) {
    At(s, c) && s.readers[c].pc.Retiring? && KnownWaiter(s, s.readers[c].pc.w) && s.lock.None?
  }

  // registry.go:130 and 145-148.
  function DoRetire(s: State, c: Conn): State
    requires CanRetire(s, c)
  {
    var w := s.readers[c].pc.w;
    SetPc(TakeOut(s, w), c, Pc.Cancelling(TakenOut(s, w)))
  }

  predicate CanCloseDone(s: State, c: Conn) {
    At(s, c) && s.readers[c].pc.Cancelling?
  }

  // registry.go:149-151.
  function DoCloseDone(s: State, c: Conn): State
    requires CanCloseDone(s, c)
  {
    SetPc(CloseTarget(s, s.readers[c].pc.target), c, Reading)
  }

  predicate CanUnregister(s: State, c: Conn) {
    At(s, c) && s.readers[c].pc.Departing? && s.lock.None?
  }

  // registry.go:81-88.
  function DoUnregister(s: State, c: Conn): State
    requires CanUnregister(s, c)
  {
    var a := s.readers[c].agentId;
    if a in s.runtimes && s.runtimes[a] == c
    then SetPc(s.(runtimes := s.runtimes - {a}, lock := Some(c)), c, Sweeping(false))
    else SetPc(s, c, Closed)
  }

  // The map iteration of failWaitersLocked may come to any of the agent's keys.
  predicate CanSweepOne(s: State, c: Conn, key: Key) {
    At(s, c) && s.readers[c].pc.Sweeping?
    && key in s.waiters && key.agentId == s.readers[c].agentId && KnownWaiter(s, s.waiters[key])
  }

  // registry.go:135-140, up to the call of fail.
  function DoSweepOne(s: State, c: Conn, key: Key): State
    requires CanSweepOne(s, c, key)
  {
    var w := s.waiters[key];
    var s1 := s.(waiters := s.waiters - {key}, table := s.table[w := s.table[w].(fate := Swept)]);
    SetPc(s1, c, FailLocking(w, s.readers[c].pc.resume))
  }

  predicate CanSweepEnd(s: State, c: Conn) {
    At(s, c) && s.readers[c].pc.Sweeping?
    && forall key :: key in s.waiters ==> key.agentId != s.readers[c].agentId
  }

  function DoSweepEnd(s: State, c: Conn): State
    requires CanSweepEnd(s, c)
  {
    SetPc(s.(lock := None), c, if s.readers[c].pc.resume then Reading else Closed)
  }

  predicate CanFailPush(s: State, c: Conn) {
    At(s, c) && s.readers[c].pc.FailSelecting? && KnownWaiter(s, s.readers[c].pc.w)
    && !Full(s.table[s.readers[c].pc.w])
  }

  // registry.go:55.
  function DoFailPush(s: State, c: Conn): State
    requires CanFailPush(s, c)
  {
    var pc := s.readers[c].pc;
    var x := s.table[pc.w];
    var s1 := SetWaiter(s, pc.w, x.(sent := x.sent + [Item(SyntheticError(x.key, pc.resume), true)]));
    SetPc(s1, c, FailClosing(pc.w, pc.resume))
  }

  predicate CanFailSkip(s: State, c: Conn) {
    At(s, c) && s.readers[c].pc.FailSelecting? && KnownWaiter(s, s.readers[c].pc.w)
    && s.table[s.readers[c].pc.w].done
  }

  // registry.go:53-54.
  function DoFailSkip(s: State, c: Conn): State
    requires CanFailSkip(s, c)
  {
    var pc := s.readers[c].pc;
    SetPc(SetWaiter(s, pc.w, s.table[pc.w].(holder := None)), c, Sweeping(pc.resume))
  }

  predicate CanFailClose(s: State, c: Conn) {
    At(s, c) && s.readers[c].pc.FailClosing? && KnownWaiter(s, s.readers[c].pc.w)
  }

  // registry.go:57, and the deferred unlock.
  function DoFailClose(s: State, c: Conn): State
    requires CanFailClose(s, c)
  {
    var pc := s.readers[c].pc;
    SetPc(SetWaiter(s, pc.w, s.table[pc.w].(holder := None, done := true)), c, Sweeping(pc.resume))
  }

  // ----- browser goroutines -----

  // registry.go:90-100. Without a runtime the browser gets an error and no waiter exists.
  function DoSendTask(s: State, key: Key): State {
    if key.agentId !in s.runtimes then s
    else
      var displaced :=
        if key in s.waiters && s.waiters[key] < |s.table|
        then s.table[s.waiters[key] := s.table[s.waiters[key]].(fate := Overwritten(|s.table|))]
        else s.table;
      s.(waiters := s.waiters[key := |s.table|],
         table := displaced + [NewWaiter(key, s.runtimes[key.agentId], |s.log|)])
  }

  predicate CanWriteTask(s: State, w: WaiterId) {
    KnownWaiter(s, w) && s.table[w].consumer.Sending?
  }

  // registry.go:102-111.
  function DoWriteTask(s: State, w: WaiterId, ok: bool): State
    requires CanWriteTask(s, w)
  {
    var x := s.table[w];
    SetWaiter(s, w, if ok then x.(consumer := Receiving) else x.(consumer := Leaving, quit := true))
  }

  predicate CanReceive(s: State, w: WaiterId) {
    KnownWaiter(s, w) && s.table[w].consumer.Receiving? && s.table[w].taken < |s.table[w].sent|
  }

  // server.go:1769.
  function DoReceive(s: State, w: WaiterId): State
    requires CanReceive(s, w)
  {
    var x := s.table[w];
    SetWaiter(s, w, x.(taken := x.taken + 1, consumer := Writing(x.sent[x.taken].event)))
  }

  predicate CanRespond(s: State, w: WaiterId) {
    KnownWaiter(s, w) && s.table[w].consumer.Writing?
  }

  // server.go:1770-1775.
  function DoRespond(s: State, w: WaiterId, ok: bool): State
    requires CanRespond(s, w)
  {
    var x := s.table[w];
    var e := x.consumer.event;
    SetWaiter(s, w,
      if !ok then x.(consumer := Leaving, quit := true)
      else x.(written := x.written + [e], consumer := if IsTerminal(e) then Leaving else Receiving))
  }

  predicate CanLeave(s: State, w: WaiterId) {
    KnownWaiter(s, w) && s.table[w].consumer.Leaving? && s.lock.None?
  }

  // registry.go:106 and 110, into 145-148.
  function DoLeave(s: State, w: WaiterId): State
    requires CanLeave(s, w)
  {
    var t := TakeOut(s, w);
    SetWaiter(t, w, t.table[w].(consumer := Consumer.Cancelling(TakenOut(s, w))))
  }

  predicate CanLeaveClose(s: State, w: WaiterId) {
    KnownWaiter(s, w) && s.table[w].consumer.Cancelling?
  }

  // registry.go:149-151.
  function DoLeaveClose(s: State, w: WaiterId): State
    requires CanLeaveClose(s, w)
  {
    var t := CloseTarget(s, s.table[w].consumer.target);
    SetWaiter(t, w, t.table[w].(consumer := Gone))
  }

  // ----- the step system -----

  predicate Can(s: State, a: Action) {
    match a
    case Connect(c, _) => CanConnect(s, c)
    case Register(c) => CanRegister(s, c)
    case ReadEvent(c, _) => CanRead(s, c)
    case ReadError(c) => CanRead(s, c)
    case Snapshot(c) => CanSnapshot(s, c)
    case LockWaiter(c) => CanLockWaiter(s, c)
    case Push(c) => CanPush(s, c)
    case Drop(c) => CanDrop(s, c)
    case Retire(c) => CanRetire(s, c)
    case CloseDone(c) => CanCloseDone(s, c)
    case Unregister(c) => CanUnregister(s, c)
    case SweepOne(c, key) => CanSweepOne(s, c, key)
    case SweepEnd(c) => CanSweepEnd(s, c)
    case FailPush(c) => CanFailPush(s, c)
    case FailSkip(c) => CanFailSkip(s, c)
    case FailClose(c) => CanFailClose(s, c)
    case SendTask(_) => s.lock.None?
    case WriteTask(w, _) => CanWriteTask(s, w)
    case Receive(w) => CanReceive(s, w)
    case Respond(w, _) => CanRespond(s, w)
    case Leave(w) => CanLeave(s, w)
    case LeaveClose(w) => CanLeaveClose(s, w)
  }

  function Do(s: State, a: Action): State
    requires Can(s, a)
  {
    match a
    case Connect(c, agentId) => DoConnect(s, c, agentId)
    case Register(c) => DoRegister(s, c)
    case ReadEvent(c, e) => DoReadEvent(s, c, e)
    case ReadError(c) => DoReadError(s, c)
    case Snapshot(c) => DoSnapshot(s, c)
    case LockWaiter(c) => DoLockWaiter(s, c)
    case Push(c) => DoPush(s, c)
    case Drop(c) => DoDrop(s, c)
    case Retire(c) => DoRetire(s, c)
    case CloseDone(c) => DoCloseDone(s, c)
    case Unregister(c) => DoUnregister(s, c)
    case SweepOne(c, key) => DoSweepOne(s, c, key)
    case SweepEnd(c) => DoSweepEnd(s, c)
    case FailPush(c) => DoFailPush(s, c)
    case FailSkip(c) => DoFailSkip(s, c)
    case FailClose(c) => DoFailClose(s, c)
    case SendTask(key) => DoSendTask(s, key)
    case WriteTask(w, ok) => DoWriteTask(s, w, ok)
    case Receive(w) => DoReceive(s, w)
    case Respond(w, ok) => DoRespond(s, w, ok)
    case Leave(w) => DoLeave(s, w)
    case LeaveClose(w) => DoLeaveClose(s, w)
  }

  // A run of actions, or None when one of them was not possible.
  function Exec(s: State, run: seq<Action>): Option<State>
    decreases |run|
  {
    if run == [] then Some(s)
    else if Can(s, run[0]) then Exec(Do(s, run[0]), run[1..])
    else None
  }

  ghost predicate Reachable(s: State) {
    exists run :: Exec(INITIAL, run) == Some(s)
  }

  // ----- what was dispatched for a waiter -----

  // The events that connection `conn` handed to Dispatch for `key` from log position
  // `born` on, in order.
  function DispatchedFor(log: seq<Dispatched>, born: nat, conn: Conn, key: Key): seq<Envelope> {
    if |log| <= born then []
    else
      var last := log[|log| - 1];
      DispatchedFor(log[..|log| - 1], born, conn, key)
      + (if last.conn == conn && EventKey(last.event) == key then [last.event] else [])
  }

  // The events its task's connection dispatched for this waiter since it was inserted.
  function Offered(s: State, w: WaiterId): seq<Envelope>
    requires w < |s.table|
  {
    DispatchedFor(s.log, s.table[w].born, s.table[w].conn, s.table[w].key)
  }

  // The runtime's own events among those put on a channel, in order.
  function Real(items: seq<Item>): seq<Envelope> {
    if items == [] then []
    else
      var last := items[|items| - 1];
      Real(items[..|items| - 1]) + (if last.synthetic then [] else [last.event])
  }
}

/** The inductive invariant of the chat-task protocol. */
module ProtocolInvariant {
  import opened Wrappers
  import opened Envelopes
  import opened Protocol

  // ----- the shape of a channel -----

  ghost predicate NoSynthetic(items: seq<Item>) {
    forall i :: 0 <= i < |items| ==> !items[i].synthetic
  }

  ghost predicate OnlySyntheticAt(items: seq<Item>, n: int) {
    && 0 <= n < |items|
    && items[n].synthetic
    && forall i :: 0 <= i < |items| && i != n ==> !items[i].synthetic
  }

  ghost predicate HasRealTerminal(items: seq<Item>) {
    exists i :: 0 <= i < |items| && !items[i].synthetic && IsTerminal(items[i].event)
  }

  // The runtime's terminal event is followed by no other event of the runtime.
  ghost predicate RealTerminalLast(items: seq<Item>) {
    forall i, j :: 0 <= i < j < |items| && !items[i].synthetic && !items[j].synthetic
      ==> !IsTerminal(items[i].event)
  }

  // Every event carries the waiter's own ids, and every synthetic one is a sweep's error.
  ghost predicate WellAddressed(items: seq<Item>, key: Key) {
    forall i :: 0 <= i < |items| ==>
      && EventKey(items[i].event) == key
      && (items[i].synthetic ==> IsSweepError(items[i].event, key))
  }

  predicate IsSweepError(e: Envelope, key: Key) {
    e == SyntheticError(key, true) || e == SyntheticError(key, false)
  }

  // ----- what the rest of the state is doing to a waiter -----

  // What the goroutine of the waiter's connection is doing with this waiter.
  datatype Flight =
    | Ashore
    | Carrying(event: Envelope)   // between the snapshot and the end of deliver
    | Landed                      // has delivered a terminal event, about to remove the waiter

  // What a sweep is doing with this waiter.
  datatype Phase =
    | Untouched
    | Failing                     // taken out of the map, error not sent yet
    | Closing                     // error sent, `done` not closed yet

  datatype Context = Context(
    inMap: bool,
    onCurrent: bool,              // its connection is the one registered for its agent
    sweeping: bool,               // a sweep of its agent is under way
    flight: Flight,
    phase: Phase,
    offered: seq<Envelope>)

  function FlightOf(pc: Pc, w: WaiterId): Flight {
    match pc
    case Locking(v, e) => if v == w then Carrying(e) else Ashore
    case Selecting(v, e) => if v == w then Carrying(e) else Ashore
    case Retiring(v) => if v == w then Landed else Ashore
    case _ => Ashore
  }

  function PhaseOf(pc: Pc, w: WaiterId): Phase {
    match pc
    case FailLocking(v, _) => if v == w then Failing else Untouched
    case FailSelecting(v, _) => if v == w then Failing else Untouched
    case FailClosing(v, _) => if v == w then Closing else Untouched
    case _ => Untouched
  }

  function LockPc(s: State): Pc {
    if s.lock.Some? then PcOf(s, s.lock.value) else Closed
  }

  predicate BeingSwept(s: State, agentId: string) {
    s.lock.Some? && s.lock.value in s.readers && s.readers[s.lock.value].agentId == agentId
  }

  function ContextOf(s: State, w: WaiterId): Context
    requires w < |s.table|
  {
    var x := s.table[w];
    Context(
      x.key in s.waiters && s.waiters[x.key] == w,
      x.key.agentId in s.runtimes && s.runtimes[x.key.agentId] == x.conn,
      BeingSwept(s, x.key.agentId),
      FlightOf(PcOf(s, x.conn), w),
      PhaseOf(LockPc(s), w),
      Offered(s, w))
  }

  // ----- the invariant of one waiter in its context -----

  ghost predicate PlaceOk(x: Waiter, cx: Context) {
    && (x.fate.Live? <==> cx.inMap)
    && (x.fate.Live? && !cx.sweeping ==> cx.onCurrent)
    && (x.fate.Live? || x.fate.Overwritten? ==> !x.done)
    && (x.fate.Live? || !cx.phase.Untouched? ==> !x.consumer.Cancelling? && !x.consumer.Gone?)
  }

  ghost predicate StreamOk(x: Waiter, cx: Context) {
    && x.taken <= |x.sent| <= x.taken + QUEUE_CAPACITY
    && WellAddressed(x.sent, x.key)
    && RealTerminalLast(x.sent)
    && (cx.flight.Landed? ==> HasRealTerminal(x.sent))
    && (x.fate.Live? && HasRealTerminal(x.sent) ==> cx.flight.Landed?)
    && (cx.flight.Carrying? ==> !HasRealTerminal(x.sent))
    && Real(x.sent) <= cx.offered
    && (cx.flight.Carrying? ==> cx.offered == Real(x.sent) + [cx.flight.event])
    && (cx.flight.Carrying? ==> EventKey(cx.flight.event) == x.key)
    && (x.fate.Live? && !cx.flight.Carrying? ==> cx.offered == Real(x.sent))
  }

  ghost predicate SweepOk(x: Waiter, cx: Context) {
    && (!x.fate.Swept? ==> NoSynthetic(x.sent) && cx.phase.Untouched?)
    && (cx.phase.Failing? ==> NoSynthetic(x.sent) && !x.done)
    && (cx.phase.Closing? ==> OnlySyntheticAt(x.sent, |x.sent| - 1) && !x.done)
    && (x.fate.Swept? && cx.phase.Untouched? ==>
          x.done &&
          (OnlySyntheticAt(x.sent, |x.sent| - 1) ||
           (OnlySyntheticAt(x.sent, |x.sent| - 2) && !cx.flight.Carrying?)))
  }

  ghost predicate ConsumerOk(x: Waiter) {
    && |x.written| <= x.taken <= |x.sent|
    && x.written == Events(x.sent)[..|x.written|]
    && match x.consumer
       case Sending => x.taken == 0 && !x.quit
       case Receiving => |x.written| == x.taken && NoTerminal(x.written) && !x.quit
       case Writing(e) =>
         |x.written| == x.taken - 1 && NoTerminal(x.written) && !x.quit && e == x.sent[x.taken - 1].event
       case _ =>
         if x.quit then NoTerminal(x.written)
         else |x.written| == x.taken && EndsWithItsTerminal(x.written)
  }

  ghost predicate LocalOk(x: Waiter, cx: Context) {
    PlaceOk(x, cx) && StreamOk(x, cx) && SweepOk(x, cx) && ConsumerOk(x)
  }

  // ----- the invariant, waiter by waiter -----

  predicate HoldsRegistry(pc: Pc) {
    pc.Sweeping? || pc.FailLocking? || pc.FailSelecting? || pc.FailClosing?
  }

  predicate HoldsWaiter(pc: Pc, w: WaiterId) {
    (pc.Selecting? || pc.FailSelecting? || pc.FailClosing?) && pc.w == w
  }

  // A removeWaiter call only closes waiters that some removeWaiter call took out.
  ghost predicate TargetOk(s: State, target: Option<WaiterId>) {
    target.Some? ==> target.value < |s.table| && s.table[target.value].fate.Removed?
  }

  ghost predicate LinksOk(s: State, w: WaiterId)
    requires w < |s.table|
  {
    var x := s.table[w];
    && x.born <= |s.log|
    && x.conn in s.readers
    && s.readers[x.conn].agentId == x.key.agentId
    && !s.readers[x.conn].pc.Connected?
    && (x.holder.Some? ==> x.holder.value in s.readers && HoldsWaiter(s.readers[x.holder.value].pc, w))
    && (x.consumer.Cancelling? ==> TargetOk(s, x.consumer.target))
    && (x.fate.Overwritten? ==>
          w != x.fate.successor < |s.table| && s.table[x.fate.successor].key == x.key)
    && (x.fate.Removed? ==> x.fate.remover < |s.table| && s.table[x.fate.remover].key == x.key)
    && (x.fate == Removed(w) ==>
          HasRealTerminal(x.sent) || x.consumer.Cancelling? || x.consumer.Gone?)
  }

  ghost predicate WaiterOk(s: State, w: WaiterId)
    requires w < |s.table|
  {
    LinksOk(s, w) && LocalOk(s.table[w], ContextOf(s, w))
  }

  // ----- the invariant, connection by connection -----

  predicate KeepsOthersOut(pc: Pc) {
    HoldsRegistry(pc) && !pc.resume
  }

  ghost predicate ReaderOk(s: State, c: Conn)
    requires c in s.readers
  {
    var a := s.readers[c].agentId;
    var pc := s.readers[c].pc;
    && (s.lock == Some(c) <==> HoldsRegistry(pc))
    && (KeepsOthersOut(pc) ==> a !in s.runtimes)
    && (pc.Dispatching? ==> pc.event.agentId == a)
    && (pc.Locking? || pc.Selecting? || pc.Retiring? ==>
          pc.w < |s.table| && s.table[pc.w].conn == c)
    && (pc.Cancelling? ==> TargetOk(s, pc.target))
    && (pc.FailLocking? || pc.FailSelecting? || pc.FailClosing? ==>
          pc.w < |s.table| && s.table[pc.w].fate.Swept? && s.table[pc.w].key.agentId == a)
    && (pc.Selecting? || pc.FailSelecting? || pc.FailClosing? ==> s.table[pc.w].holder == Some(c))
  }

  // ----- the invariant, for the two maps -----

  ghost predicate MapsOk(s: State) {
    && (forall a :: a in s.runtimes ==>
          && s.runtimes[a] in s.readers && s.readers[s.runtimes[a]].agentId == a
          && !s.readers[s.runtimes[a]].pc.Connected? && !s.readers[s.runtimes[a]].pc.Closed?)
    && (forall key :: key in s.waiters ==>
          s.waiters[key] < |s.table| && s.table[s.waiters[key]].key == key)
    && (s.lock.Some? ==> s.lock.value in s.readers)
  }

  ghost predicate WaitersOk(s: State) {
    forall w {:trigger WaiterOk(s, w)} :: 0 <= w < |s.table| ==> WaiterOk(s, w)
  }

  ghost predicate ReadersOk(s: State) {
    forall c {:trigger ReaderOk(s, c)} :: c in s.readers ==> ReaderOk(s, c)
  }

  ghost predicate Inv(s: State) {
    MapsOk(s) && WaitersOk(s) && ReadersOk(s)
  }

  // ----- histories grow at the end -----

  lemma DispatchedAppend(log: seq<Dispatched>, d: Dispatched, born: nat, conn: Conn, key: Key)
    requires born <= |log|
    ensures DispatchedFor(log + [d], born, conn, key)
         == DispatchedFor(log, born, conn, key)
            + (if d.conn == conn && EventKey(d.event) == key then [d.event] else [])
  {
    assert (log + [d])[..|log|] == log;
  }

  lemma RealAppend(items: seq<Item>, x: Item)
    ensures Real(items + [x]) == Real(items) + (if x.synthetic then [] else [x.event])
  {
    assert (items + [x])[..|items|] == items;
  }

  lemma OfferedAfterSnapshot(s: State, c: Conn, w: WaiterId)
    requires CanSnapshot(s, c) && w < |s.table| && s.table[w].born <= |s.log|
    ensures Offered(DoSnapshot(s, c), w)
         == Offered(s, w)
            + (if s.table[w].conn == c && EventKey(s.readers[c].pc.event) == s.table[w].key
               then [s.readers[c].pc.event] else [])
  {
    var x := s.table[w];
    DispatchedAppend(s.log, Dispatched(c, s.readers[c].pc.event), x.born, x.conn, x.key);
  }

  // ----- what each action does to the waiter it touches, in that waiter's context -----

  lemma PlaceLocal(x: Waiter, cx: Context, onCurrent: bool, sweeping: bool)
    requires LocalOk(x, cx) && (x.fate.Live? ==> sweeping || onCurrent)
    ensures LocalOk(x, cx.(onCurrent := onCurrent, sweeping := sweeping))
  {
  }

  lemma PlaceFacts(x: Waiter, cx: Context)
    requires LocalOk(x, cx)
    ensures x.fate.Live? <==> cx.inMap
    ensures x.fate.Live? && !cx.sweeping ==> cx.onCurrent
    ensures x.fate.Live? || x.fate.Overwritten? ==> !x.done
    ensures !x.fate.Swept? ==> cx.phase.Untouched?
    ensures cx.flight.Landed? ==> HasRealTerminal(x.sent)
    ensures cx.phase.Failing? ==> !x.done
    ensures x.fate.Live? || !cx.phase.Untouched? ==> !x.consumer.Cancelling? && !x.consumer.Gone?
  {
  }

  lemma OfferLocal(x: Waiter, cx: Context, e: Envelope)
    requires LocalOk(x, cx) && cx.flight.Ashore? && EventKey(e) == x.key
    ensures x.fate.Live? ==> LocalOk(x, cx.(offered := cx.offered + [e], flight := Carrying(e)))
    ensures !x.fate.Live? ==> LocalOk(x, cx.(offered := cx.offered + [e]))
  {
  }

  lemma TerminalAppend(items: seq<Item>, x: Item)
    ensures HasRealTerminal(items + [x]) <==>
      HasRealTerminal(items) || (!x.synthetic && IsTerminal(x.event))
  {
    var more := items + [x];
    assert forall i :: 0 <= i < |items| ==> more[i] == items[i];
    assert more[|items|] == x;
  }

  lemma TerminalLastAppend(items: seq<Item>, x: Item)
    requires RealTerminalLast(items) && (x.synthetic || !HasRealTerminal(items))
    ensures RealTerminalLast(items + [x])
  {
  }

  // What is queued behind the reading end does not touch what was written.
  lemma AppendKeepsConsumer(x: Waiter, item: Item, h: Option<Conn>)
    requires ConsumerOk(x)
    ensures ConsumerOk(x.(sent := x.sent + [item], holder := h))
  {
    var y := x.(sent := x.sent + [item], holder := h);
    assert Events(y.sent)[..|x.written|] == Events(x.sent)[..|x.written|];
  }

  lemma PushStream(x: Waiter, cx: Context, e: Envelope, h: Option<Conn>)
    requires PlaceOk(x, cx) && StreamOk(x, cx) && cx.flight == Carrying(e) && !Full(x)
    ensures var y := x.(sent := x.sent + [Item(e, false)], holder := h);
      StreamOk(y, cx.(flight := if IsTerminal(e) then Landed else Ashore))
  {
    var item := Item(e, false);
    RealAppend(x.sent, item);
    TerminalAppend(x.sent, item);
    TerminalLastAppend(x.sent, item);
    WellAddressedAppend(x.sent, item, x.key);
    hide HasRealTerminal, Real, RealTerminalLast, WellAddressed;
  }

  lemma WellAddressedAppend(items: seq<Item>, x: Item, key: Key)
    requires WellAddressed(items, key) && EventKey(x.event) == key
    requires x.synthetic ==> IsSweepError(x.event, key)
    ensures WellAddressed(items + [x], key)
  {
  }

  lemma NoSyntheticAppend(items: seq<Item>, e: Envelope)
    ensures NoSynthetic(items) ==> NoSynthetic(items + [Item(e, false)])
    ensures forall n :: OnlySyntheticAt(items, n) ==> OnlySyntheticAt(items + [Item(e, false)], n)
  {
    var more := items + [Item(e, false)];
    assert forall i :: 0 <= i < |items| ==> more[i] == items[i];
  }

  lemma PushSweep(x: Waiter, cx: Context, e: Envelope, h: Option<Conn>)
    requires SweepOk(x, cx) && cx.flight == Carrying(e) && !cx.phase.Closing?
    ensures var y := x.(sent := x.sent + [Item(e, false)], holder := h);
      SweepOk(y, cx.(flight := if IsTerminal(e) then Landed else Ashore))
  {
    NoSyntheticAppend(x.sent, e);
    hide NoSynthetic, OnlySyntheticAt;
  }

  lemma PushLocal(x: Waiter, cx: Context, e: Envelope, h: Option<Conn>)
    requires LocalOk(x, cx) && cx.flight == Carrying(e) && !Full(x) && !cx.phase.Closing?
    ensures var y := x.(sent := x.sent + [Item(e, false)], holder := h);
      && LocalOk(y, cx.(flight := if IsTerminal(e) then Landed else Ashore))
      && (HasRealTerminal(x.sent) || IsTerminal(e) ==> HasRealTerminal(y.sent))
  {
    TerminalAppend(x.sent, Item(e, false));
    PushStream(x, cx, e, h);
    PushSweep(x, cx, e, h);
    AppendKeepsConsumer(x, Item(e, false), h);
    hide HasRealTerminal, StreamOk, SweepOk, ConsumerOk;
  }

  // Losing sight of a waiter that is out of the map costs its invariant nothing.
  lemma AshoreLocal(x: Waiter, cx: Context)
    requires LocalOk(x, cx) && !cx.inMap && !cx.flight.Carrying?
    ensures LocalOk(x, cx.(flight := Ashore))
  {
  }

  lemma LeavingLocal(x: Waiter, cx: Context, target: Option<WaiterId>)
    requires LocalOk(x, cx) && x.consumer.Leaving? && !cx.inMap && cx.phase.Untouched?
    ensures LocalOk(x.(consumer := Consumer.Cancelling(target)), cx)
  {
  }

  lemma GoneLocal(x: Waiter, cx: Context)
    requires LocalOk(x, cx) && x.consumer.Cancelling?
    ensures LocalOk(x.(consumer := Gone), cx)
  {
  }

  lemma FreshLocal(s: State, key: Key)
    requires s.lock.None? && key.agentId in s.runtimes
    requires MapsOk(s) && ReaderOk(s, s.runtimes[key.agentId])
    ensures LocalOk(DoSendTask(s, key).table[|s.table|], ContextOf(DoSendTask(s, key), |s.table|))
  {
  }

  lemma DropLocal(x: Waiter, cx: Context, h: Option<Conn>)
    requires LocalOk(x, cx) && cx.flight.Carrying? && x.done
    ensures LocalOk(x.(holder := h), cx.(flight := Ashore))
  {
  }

  lemma TakeOutLocal(x: Waiter, cx: Context, w: WaiterId)
    requires LocalOk(x, cx) && cx.inMap
    ensures LocalOk(x.(fate := Removed(w)), cx.(inMap := false))
    ensures LocalOk(x.(fate := Removed(w)), cx.(inMap := false, flight := Ashore))
    ensures LocalOk(x.(fate := Overwritten(w)), cx.(inMap := false))
    ensures LocalOk(x.(fate := Swept), cx.(inMap := false, phase := Failing))
  {
  }

  lemma CloseLocal(x: Waiter, cx: Context)
    requires LocalOk(x, cx) && x.fate.Removed?
    ensures LocalOk(x.(done := true), cx)
  {
  }

  lemma FailPushLocal(x: Waiter, cx: Context, resume: bool)
    requires LocalOk(x, cx) && cx.phase.Failing? && !Full(x)
    ensures var y := x.(sent := x.sent + [Item(SyntheticError(x.key, resume), true)]);
      LocalOk(y, cx.(phase := Closing)) && (HasRealTerminal(x.sent) ==> HasRealTerminal(y.sent))
  {
    var y := x.(sent := x.sent + [Item(SyntheticError(x.key, resume), true)]);
    RealAppend(x.sent, Item(SyntheticError(x.key, resume), true));
    TerminalAppend(x.sent, Item(SyntheticError(x.key, resume), true));
    AppendKeepsConsumer(x, Item(SyntheticError(x.key, resume), true), x.holder);
    hide HasRealTerminal, Real, ConsumerOk;
  }

  lemma FailCloseLocal(x: Waiter, cx: Context)
    requires LocalOk(x, cx) && cx.phase.Closing?
    ensures LocalOk(x.(holder := None, done := true), cx.(phase := Untouched))
  {
  }

  lemma HolderLocal(x: Waiter, cx: Context, h: Option<Conn>)
    requires LocalOk(x, cx)
    ensures LocalOk(x.(holder := h), cx)
  {
  }

  // The browser's own steps before it leaves touch nothing but the waiter's reading end.
  ghost predicate ReadingStep(s: State, t: State, w: WaiterId) {
    w < |s.table| && w < |t.table| &&
    var x, y := s.table[w], t.table[w];
    && t == SetWaiter(s, w, y)
    && y == x.(taken := y.taken, consumer := y.consumer, written := y.written, quit := y.quit)
    && !x.consumer.Cancelling? && !x.consumer.Gone?
    && !y.consumer.Cancelling? && !y.consumer.Gone?
    && forall cx :: LocalOk(x, cx) ==> LocalOk(y, cx)
  }

  lemma WriteTaskLocal(s: State, w: WaiterId, ok: bool)
    requires CanWriteTask(s, w)
    ensures ReadingStep(s, DoWriteTask(s, w, ok), w)
  {
    hide Real;
  }

  lemma ReceiveLocal(s: State, w: WaiterId)
    requires CanReceive(s, w)
    ensures ReadingStep(s, DoReceive(s, w), w)
  {
    hide Real;
  }

  lemma RespondLocal(s: State, w: WaiterId, ok: bool)
    requires CanRespond(s, w)
    ensures ReadingStep(s, DoRespond(s, w, ok), w)
  {
    hide Real;
    var x, y := s.table[w], DoRespond(s, w, ok).table[w];
    if ok { assert y.written[..|x.written|] == x.written; }
  }

  // What lies in the map is live, and belongs to the agent's present connection
  // unless a sweep of that agent is under way.
  lemma MapEntry(s: State, key: Key)
    requires Inv(s) && key in s.waiters
    ensures var w := s.waiters[key];
      && w < |s.table| && s.table[w].key == key && s.table[w].fate.Live? && !s.table[w].done
      && s.table[w].conn in s.readers
      && (!BeingSwept(s, key.agentId) ==>
            key.agentId in s.runtimes && s.runtimes[key.agentId] == s.table[w].conn)
  {
    assert WaiterOk(s, s.waiters[key]);
    PlaceFacts(s.table[s.waiters[key]], ContextOf(s, s.waiters[key]));
  }

  // ----- what removeWaiter does to the table -----

  // The waiter removeWaiter takes out was in the map under the same key.
  lemma TakeOutEffect(s: State, w: WaiterId)
    requires Inv(s) && w < |s.table|
    ensures var t := TakeOut(s, w);
      && t == s.(waiters := t.waiters, table := t.table)
      && t.waiters == s.waiters - {s.table[w].key}
      && |t.table| == |s.table|
      && forall v :: 0 <= v < |s.table| ==>
           t.table[v] == if TakenOut(s, w) == Some(v) then s.table[v].(fate := Removed(w)) else s.table[v]
    ensures TakenOut(s, w).Some? ==>
      var v := TakenOut(s, w).value;
      && v < |s.table| && s.table[v].fate.Live? && s.table[v].key == s.table[w].key
    ensures forall v :: 0 <= v < |s.table| && s.table[v].fate.Live? && s.table[v].key == s.table[w].key ==>
      TakenOut(s, w) == Some(v)
  {
    hide StreamOk, SweepOk, ConsumerOk, LinksOk;
    forall v | 0 <= v < |s.table| ensures LocalOk(s.table[v], ContextOf(s, v)) {
      assert WaiterOk(s, v);
    }
  }

  lemma CloseTargetEffect(s: State, target: Option<WaiterId>)
    requires TargetOk(s, target)
    ensures var t := CloseTarget(s, target);
      && t == s.(table := t.table)
      && |t.table| == |s.table|
      && forall v :: 0 <= v < |s.table| ==>
           t.table[v] == if target == Some(v) then s.table[v].(done := true) else s.table[v]
  {
  }

  // Taking waiters out, closing them and moving on changes few links between waiters and
  // connections.
  ghost predicate SameLinks(s: State, t: State) {
    && |t.table| == |s.table| && t.log == s.log && t.readers.Keys == s.readers.Keys
    && (forall v {:trigger t.table[v]} :: 0 <= v < |s.table| ==>
          var x, y := s.table[v], t.table[v];
          y == x.(fate := y.fate, done := y.done, consumer := y.consumer)
          && (!x.fate.Live? ==> y.fate == x.fate))
    && (forall d {:trigger t.readers[d]} :: d in s.readers ==>
          var r, q := s.readers[d], t.readers[d];
          q.agentId == r.agentId && q.pc.Connected? == r.pc.Connected?
          && (r.pc.Selecting? || r.pc.FailSelecting? || r.pc.FailClosing? ==> q == r))
  }

  lemma SameLinksOk(s: State, t: State, w: WaiterId, remover: WaiterId)
    requires SameLinks(s, t) && w < |s.table| && LinksOk(s, w)
    requires t.table[w].fate == s.table[w].fate
      || (s.table[w].fate.Live? && t.table[w].fate == Removed(remover) && remover < |s.table|
          && s.table[remover].key == s.table[w].key)
    requires var x, y := s.table[w], t.table[w];
      && (y.consumer == x.consumer || y.consumer.Gone?
          || (y.consumer.Cancelling? && TargetOk(t, y.consumer.target) && !x.consumer.Gone?))
      && (y.fate != x.fate && remover == w ==> HasRealTerminal(x.sent) || y.consumer.Cancelling?)
    ensures LinksOk(t, w)
  {
    hide HasRealTerminal;
    var x, y := s.table[w], t.table[w];
    assert t.readers[x.conn].agentId == s.readers[x.conn].agentId;
    if x.holder.Some? { assert t.readers[x.holder.value] == s.readers[x.holder.value]; }
    if x.consumer.Cancelling? && x.consumer.target.Some? {
      assert t.table[x.consumer.target.value].fate.Removed?;
    }
    if y.fate.Removed? { assert t.table[y.fate.remover].key == x.key; }
    if y.fate.Overwritten? { assert t.table[y.fate.successor].key == x.key; }
  }

  // ----- every action keeps the invariant -----

  lemma ConnectWaiters(s: State, c: Conn, agentId: string)
    requires Inv(s) && CanConnect(s, c)
    ensures WaitersOk(DoConnect(s, c, agentId))
  {
    hide LocalOk, Real, DispatchedFor, HasRealTerminal;
    var t := DoConnect(s, c, agentId);
    forall w | 0 <= w < |t.table| ensures WaiterOk(t, w) {
      assert WaiterOk(s, w);
      assert ContextOf(t, w) == ContextOf(s, w);
    }
  }

  lemma ConnectKeeps(s: State, c: Conn, agentId: string)
    requires Inv(s) && CanConnect(s, c)
    ensures Inv(DoConnect(s, c, agentId))
  {
    ConnectWaiters(s, c, agentId);
    hide WaiterOk, HasRealTerminal;
    var t := DoConnect(s, c, agentId);
    forall d | d in t.readers ensures ReaderOk(t, d) { if d != c { assert ReaderOk(s, d); } }
  }

  lemma RegisterWaiters(s: State, c: Conn)
    requires Inv(s) && CanRegister(s, c)
    ensures WaitersOk(DoRegister(s, c))
  {
    hide LocalOk, Real, DispatchedFor, HasRealTerminal;
    var t := DoRegister(s, c);
    assert ReaderOk(s, c);
    forall w | 0 <= w < |t.table| ensures WaiterOk(t, w) {
      assert WaiterOk(s, w);
      PlaceFacts(s.table[w], ContextOf(s, w));
      PlaceLocal(s.table[w], ContextOf(s, w), ContextOf(t, w).onCurrent, ContextOf(t, w).sweeping);
      assert ContextOf(t, w) == ContextOf(s, w).(onCurrent := ContextOf(t, w).onCurrent, sweeping := ContextOf(t, w).sweeping);
    }
  }

  lemma RegisterKeeps(s: State, c: Conn)
    requires Inv(s) && CanRegister(s, c)
    ensures Inv(DoRegister(s, c))
  {
    RegisterWaiters(s, c);
    hide WaiterOk, HasRealTerminal;
    var t := DoRegister(s, c);
    assert ReaderOk(s, c);
    forall d | d in t.readers ensures ReaderOk(t, d) { assert ReaderOk(s, d); }
  }

  lemma ReadEventWaiters(s: State, c: Conn, e: Envelope)
    requires Inv(s) && CanRead(s, c)
    ensures WaitersOk(DoReadEvent(s, c, e))
  {
    hide LocalOk, Real, DispatchedFor, HasRealTerminal;
    var t := DoReadEvent(s, c, e);
    assert ReaderOk(s, c);
    forall w | 0 <= w < |t.table| ensures WaiterOk(t, w) {
      assert WaiterOk(s, w);
      assert ContextOf(t, w) == ContextOf(s, w);
    }
  }

  lemma ReadEventKeeps(s: State, c: Conn, e: Envelope)
    requires Inv(s) && CanRead(s, c)
    ensures Inv(DoReadEvent(s, c, e))
  {
    ReadEventWaiters(s, c, e);
    hide WaiterOk, HasRealTerminal;
    var t := DoReadEvent(s, c, e);
    assert ReaderOk(s, c);
    forall d | d in t.readers ensures ReaderOk(t, d) { assert ReaderOk(s, d); }
  }

  lemma ReadErrorWaiters(s: State, c: Conn)
    requires Inv(s) && CanRead(s, c)
    ensures WaitersOk(DoReadError(s, c))
  {
    hide LocalOk, Real, DispatchedFor, HasRealTerminal;
    var t := DoReadError(s, c);
    assert ReaderOk(s, c);
    forall w | 0 <= w < |t.table| ensures WaiterOk(t, w) {
      assert WaiterOk(s, w);
      assert ContextOf(t, w) == ContextOf(s, w);
    }
  }

  lemma ReadErrorKeeps(s: State, c: Conn)
    requires Inv(s) && CanRead(s, c)
    ensures Inv(DoReadError(s, c))
  {
    ReadErrorWaiters(s, c);
    hide WaiterOk, HasRealTerminal;
    var t := DoReadError(s, c);
    assert ReaderOk(s, c);
    forall d | d in t.readers ensures ReaderOk(t, d) { assert ReaderOk(s, d); }
  }

  lemma SnapshotWaiters(s: State, c: Conn)
    requires Inv(s) && CanSnapshot(s, c)
    ensures WaitersOk(DoSnapshot(s, c))
  {
    hide LocalOk, Real, DispatchedFor, HasRealTerminal;
    var t := DoSnapshot(s, c);
    assert ReaderOk(s, c);
    var e := s.readers[c].pc.event;
    if EventKey(e) in s.waiters { MapEntry(s, EventKey(e)); }
    forall w | 0 <= w < |t.table| ensures WaiterOk(t, w) {
      assert WaiterOk(s, w);
      var x, cx := s.table[w], ContextOf(s, w);
      PlaceFacts(x, cx);
      OfferedAfterSnapshot(s, c, w);
      if x.conn == c && x.key == EventKey(e) {
        OfferLocal(x, cx, e);
        assert ContextOf(t, w) == cx.(offered := cx.offered + [e], flight := if x.fate.Live? then Carrying(e) else Ashore);
      } else {
        assert ContextOf(t, w) == cx;
      }
    }
  }

  lemma SnapshotKeeps(s: State, c: Conn)
    requires Inv(s) && CanSnapshot(s, c)
    ensures Inv(DoSnapshot(s, c))
  {
    SnapshotWaiters(s, c);
    hide WaiterOk, HasRealTerminal;
    var t := DoSnapshot(s, c);
    assert ReaderOk(s, c);
    var key := EventKey(s.readers[c].pc.event);
    if key in s.waiters { MapEntry(s, key); }
    forall d | d in t.readers ensures ReaderOk(t, d) { assert ReaderOk(s, d); }
  }

  lemma LockWaiterWaiters(s: State, c: Conn)
    requires Inv(s) && CanLockWaiter(s, c)
    ensures WaitersOk(DoLockWaiter(s, c))
  {
    hide LocalOk, Real, DispatchedFor, HasRealTerminal;
    var t := DoLockWaiter(s, c);
    assert ReaderOk(s, c);
    var pc := s.readers[c].pc;
    forall w | 0 <= w < |t.table| ensures WaiterOk(t, w) {
      assert WaiterOk(s, w);
      if w == pc.w {
        HolderLocal(s.table[w], ContextOf(s, w), Some(c));
        assert ContextOf(t, w) == ContextOf(s, w);
      } else {
        assert ContextOf(t, w) == ContextOf(s, w);
      }
    }
  }

  lemma LockWaiterKeeps(s: State, c: Conn)
    requires Inv(s) && CanLockWaiter(s, c)
    ensures Inv(DoLockWaiter(s, c))
  {
    LockWaiterWaiters(s, c);
    hide WaiterOk, HasRealTerminal;
    var t := DoLockWaiter(s, c);
    assert ReaderOk(s, c);
    forall d | d in t.readers ensures ReaderOk(t, d) { assert ReaderOk(s, d); }
  }

  lemma PushWaiters(s: State, c: Conn)
    requires Inv(s) && CanPush(s, c)
    ensures WaitersOk(DoPush(s, c))
  {
    hide LocalOk, Real, DispatchedFor, HasRealTerminal;
    var t := DoPush(s, c);
    assert ReaderOk(s, c);
    var pc := s.readers[c].pc;
    if s.lock.Some? { assert ReaderOk(s, s.lock.value); }
    forall w | 0 <= w < |t.table| ensures WaiterOk(t, w) {
      assert WaiterOk(s, w);
      if w == pc.w {
        PushLocal(s.table[w], ContextOf(s, w), pc.event, None);
        assert ContextOf(t, w) == ContextOf(s, w).(flight := if IsTerminal(pc.event) then Landed else Ashore);
      } else {
        assert ContextOf(t, w) == ContextOf(s, w);
      }
    }
  }

  lemma PushKeeps(s: State, c: Conn)
    requires Inv(s) && CanPush(s, c)
    ensures Inv(DoPush(s, c))
  {
    PushWaiters(s, c);
    hide WaiterOk, HasRealTerminal;
    var t := DoPush(s, c);
    assert ReaderOk(s, c);
    forall d | d in t.readers ensures ReaderOk(t, d) { assert ReaderOk(s, d); }
  }

  lemma DropWaiters(s: State, c: Conn)
    requires Inv(s) && CanDrop(s, c)
    ensures WaitersOk(DoDrop(s, c))
  {
    hide LocalOk, Real, DispatchedFor, HasRealTerminal;
    var t := DoDrop(s, c);
    assert ReaderOk(s, c);
    var pc := s.readers[c].pc;
    forall w | 0 <= w < |t.table| ensures WaiterOk(t, w) {
      assert WaiterOk(s, w);
      if w == pc.w {
        DropLocal(s.table[w], ContextOf(s, w), None);
        assert ContextOf(t, w) == ContextOf(s, w).(flight := Ashore);
      } else {
        assert ContextOf(t, w) == ContextOf(s, w);
      }
    }
  }

  lemma DropKeeps(s: State, c: Conn)
    requires Inv(s) && CanDrop(s, c)
    ensures Inv(DoDrop(s, c))
  {
    DropWaiters(s, c);
    hide WaiterOk, HasRealTerminal;
    var t := DoDrop(s, c);
    assert ReaderOk(s, c);
    forall d | d in t.readers ensures ReaderOk(t, d) { assert ReaderOk(s, d); }
  }

  lemma RetireEffect(s: State, c: Conn)
    requires Inv(s) && CanRetire(s, c)
    ensures var t := DoRetire(s, c);
      var v := s.readers[c].pc.w;
      && v < |s.table| && s.table[v].conn == c
      && |t.table| == |s.table|
      && t == s.(waiters := s.waiters - {s.table[v].key}, table := t.table,
                 readers := s.readers[c := s.readers[c].(pc := Pc.Cancelling(TakenOut(s, v)))])
      && forall w :: 0 <= w < |s.table| ==> t.table[w] == s.table[w].(fate := t.table[w].fate)
  {
    assert ReaderOk(s, c);
    TakeOutEffect(s, s.readers[c].pc.w);
    hide Inv, TakeOut, ReaderOk, TakenOut;
  }

  lemma RetireContext(s: State, c: Conn, w: WaiterId)
    requires Inv(s) && CanRetire(s, c) && w < |s.table| == |DoRetire(s, c).table|
    ensures var pc := s.readers[c].pc;
      var cx := ContextOf(s, w);
      && pc.w < |s.table|
      && ContextOf(DoRetire(s, c), w) == cx.(
           inMap := cx.inMap && TakenOut(s, pc.w) != Some(w),
           flight := if w == pc.w then Ashore else cx.flight)
  {
    RetireEffect(s, c);
    hide Inv, DispatchedFor, DoRetire;
  }

  lemma RetireLocal(s: State, c: Conn, w: WaiterId)
    requires Inv(s) && CanRetire(s, c) && w < |s.table| == |DoRetire(s, c).table|
    ensures LocalOk(DoRetire(s, c).table[w], ContextOf(DoRetire(s, c), w))
  {
    assert ReaderOk(s, c);
    var pc := s.readers[c].pc;
    assert WaiterOk(s, pc.w) && WaiterOk(s, w);
    var x, cx := s.table[w], ContextOf(s, w);
    PlaceFacts(s.table[pc.w], ContextOf(s, pc.w));
    PlaceFacts(x, cx);
    TakeOutEffect(s, pc.w);
    RetireContext(s, c, w);
    assert w == pc.w ==> cx.flight.Landed?;
    hide LocalOk, DispatchedFor, TakeOut, Inv, ContextOf, TakenOut, ReaderOk, WaiterOk;
    if TakenOut(s, pc.w) == Some(w) {
      TakeOutLocal(x, cx, pc.w);
    } else if w == pc.w {
      AshoreLocal(x, cx);
    }
  }

  // A waiter taken out of the map, and what its context loses by that.
  lemma RetireLocals(s: State, c: Conn)
    requires Inv(s) && CanRetire(s, c)
    ensures |DoRetire(s, c).table| == |s.table|
    ensures forall w :: 0 <= w < |DoRetire(s, c).table| ==> LocalOk(DoRetire(s, c).table[w], ContextOf(DoRetire(s, c), w))
  {
    assert ReaderOk(s, c);
    hide LocalOk, Inv, ContextOf;
    forall w | 0 <= w < |s.table| ensures LocalOk(DoRetire(s, c).table[w], ContextOf(DoRetire(s, c), w)) {
      RetireLocal(s, c, w);
    }
  }

  lemma TakeOutSame(s: State, w: WaiterId, c: Conn, pc: Pc)
    requires Inv(s) && w < |s.table| && c in s.readers
    requires s.readers[c].pc.Retiring? && pc.Cancelling?
    ensures SameLinks(s, SetPc(TakeOut(s, w), c, pc))
  {
    TakeOutEffect(s, w);
    hide Inv, TakeOut;
  }

  lemma RetireLinks(s: State, c: Conn, w: WaiterId)
    requires Inv(s) && CanRetire(s, c) && w < |s.table|
    ensures w < |DoRetire(s, c).table| && LinksOk(DoRetire(s, c), w)
  {
    assert ReaderOk(s, c);
    var v := s.readers[c].pc.w;
    assert WaiterOk(s, v) && WaiterOk(s, w);
    PlaceFacts(s.table[v], ContextOf(s, v));
    TakeOutEffect(s, v);
    TakeOutSame(s, v, c, Pc.Cancelling(TakenOut(s, v)));
    hide Inv, WaiterOk, ReaderOk, TakeOut, LinksOk, HasRealTerminal, SameLinks;
    SameLinksOk(s, DoRetire(s, c), w, v);
  }

  lemma RetireWaiters(s: State, c: Conn)
    requires Inv(s) && CanRetire(s, c)
    ensures WaitersOk(DoRetire(s, c))
  {
    RetireLocals(s, c);
    forall w | 0 <= w < |DoRetire(s, c).table| ensures WaiterOk(DoRetire(s, c), w) {
      RetireLinks(s, c, w);
    }
  }

  lemma TakenOutIsRemoved(s: State, c: Conn)
    requires Inv(s) && CanRetire(s, c)
    ensures |DoRetire(s, c).table| == |s.table| && s.readers[c].pc.w < |s.table|
    ensures TargetOk(DoRetire(s, c), TakenOut(s, s.readers[c].pc.w))
    ensures forall w :: 0 <= w < |s.table| && s.table[w].fate.Removed? ==> DoRetire(s, c).table[w].fate.Removed?
  {
    assert ReaderOk(s, c);
    TakeOutEffect(s, s.readers[c].pc.w);
    hide Inv, TakeOut, ReaderOk;
  }

  lemma RetireKeeps(s: State, c: Conn)
    requires Inv(s) && CanRetire(s, c)
    ensures Inv(DoRetire(s, c))
  {
    RetireWaiters(s, c);
    RetireEffect(s, c);
    assert ReaderOk(s, c) && s.lock.None?;
    TakenOutIsRemoved(s, c);
    hide WaiterOk, HasRealTerminal, DoRetire, TakenOut;
    var t := DoRetire(s, c);
    forall d | d in t.readers ensures ReaderOk(t, d) { assert ReaderOk(s, d); }
  }

  lemma CloseDoneWaiters(s: State, c: Conn)
    requires Inv(s) && CanCloseDone(s, c)
    ensures WaitersOk(DoCloseDone(s, c))
  {
    hide LocalOk, Real, DispatchedFor, HasRealTerminal;
    var t := DoCloseDone(s, c);
    assert ReaderOk(s, c);
    var target := s.readers[c].pc.target;
    CloseTargetEffect(s, target);
    forall w | 0 <= w < |t.table| ensures WaiterOk(t, w) {
      assert WaiterOk(s, w);
      if target == Some(w) {
        CloseLocal(s.table[w], ContextOf(s, w));
        assert ContextOf(t, w) == ContextOf(s, w);
      } else {
        assert ContextOf(t, w) == ContextOf(s, w);
      }
    }
  }

  lemma CloseDoneKeeps(s: State, c: Conn)
    requires Inv(s) && CanCloseDone(s, c)
    ensures Inv(DoCloseDone(s, c))
  {
    CloseDoneWaiters(s, c);
    hide WaiterOk, HasRealTerminal;
    var t := DoCloseDone(s, c);
    assert ReaderOk(s, c);
    forall d | d in t.readers ensures ReaderOk(t, d) { assert ReaderOk(s, d); }
  }

  lemma UnregisterWaiters(s: State, c: Conn)
    requires Inv(s) && CanUnregister(s, c)
    ensures WaitersOk(DoUnregister(s, c))
  {
    hide LocalOk, Real, DispatchedFor, HasRealTerminal;
    var t := DoUnregister(s, c);
    assert ReaderOk(s, c);
    forall w | 0 <= w < |t.table| ensures WaiterOk(t, w) {
      assert WaiterOk(s, w);
      PlaceFacts(s.table[w], ContextOf(s, w));
      PlaceLocal(s.table[w], ContextOf(s, w), ContextOf(t, w).onCurrent, ContextOf(t, w).sweeping);
      assert ContextOf(t, w) == ContextOf(s, w).(onCurrent := ContextOf(t, w).onCurrent, sweeping := ContextOf(t, w).sweeping);
    }
  }

  lemma UnregisterKeeps(s: State, c: Conn)
    requires Inv(s) && CanUnregister(s, c)
    ensures Inv(DoUnregister(s, c))
  {
    UnregisterWaiters(s, c);
    hide WaiterOk, HasRealTerminal;
    var t := DoUnregister(s, c);
    assert ReaderOk(s, c);
    forall d | d in t.readers ensures ReaderOk(t, d) { assert ReaderOk(s, d); }
  }

  lemma SweepOneWaiters(s: State, c: Conn, key: Key)
    requires Inv(s) && CanSweepOne(s, c, key)
    ensures WaitersOk(DoSweepOne(s, c, key))
  {
    hide LocalOk, Real, DispatchedFor, HasRealTerminal;
    var t := DoSweepOne(s, c, key);
    assert ReaderOk(s, c);
    var v := s.waiters[key];
    MapEntry(s, key);
    forall w | 0 <= w < |t.table| ensures WaiterOk(t, w) {
      assert WaiterOk(s, w);
      if w == v {
        TakeOutLocal(s.table[w], ContextOf(s, w), w);
        assert ContextOf(t, w) == ContextOf(s, w).(inMap := false, phase := Failing);
      } else {
        assert ContextOf(t, w) == ContextOf(s, w);
      }
    }
  }

  lemma SweepOneKeeps(s: State, c: Conn, key: Key)
    requires Inv(s) && CanSweepOne(s, c, key)
    ensures Inv(DoSweepOne(s, c, key))
  {
    SweepOneWaiters(s, c, key);
    hide WaiterOk, HasRealTerminal;
    var t := DoSweepOne(s, c, key);
    assert ReaderOk(s, c);
    MapEntry(s, key);
    forall d | d in t.readers ensures ReaderOk(t, d) { assert ReaderOk(s, d); }
  }

  lemma SweepEndWaiters(s: State, c: Conn)
    requires Inv(s) && CanSweepEnd(s, c)
    ensures WaitersOk(DoSweepEnd(s, c))
  {
    hide LocalOk, Real, DispatchedFor, HasRealTerminal;
    var t := DoSweepEnd(s, c);
    assert ReaderOk(s, c);
    forall w | 0 <= w < |t.table| ensures WaiterOk(t, w) {
      assert WaiterOk(s, w);
      PlaceFacts(s.table[w], ContextOf(s, w));
      PlaceLocal(s.table[w], ContextOf(s, w), ContextOf(t, w).onCurrent, ContextOf(t, w).sweeping);
      assert ContextOf(t, w) == ContextOf(s, w).(sweeping := ContextOf(t, w).sweeping);
    }
  }

  lemma SweepEndKeeps(s: State, c: Conn)
    requires Inv(s) && CanSweepEnd(s, c)
    ensures Inv(DoSweepEnd(s, c))
  {
    SweepEndWaiters(s, c);
    hide WaiterOk, HasRealTerminal;
    var t := DoSweepEnd(s, c);
    assert ReaderOk(s, c);
    forall d | d in t.readers ensures ReaderOk(t, d) { assert ReaderOk(s, d); }
  }

  lemma FailPushWaiters(s: State, c: Conn)
    requires Inv(s) && CanFailPush(s, c)
    ensures WaitersOk(DoFailPush(s, c))
  {
    hide LocalOk, Real, DispatchedFor, HasRealTerminal;
    var t := DoFailPush(s, c);
    assert ReaderOk(s, c);
    var pc := s.readers[c].pc;
    forall w | 0 <= w < |t.table| ensures WaiterOk(t, w) {
      assert WaiterOk(s, w);
      if w == pc.w {
        FailPushLocal(s.table[w], ContextOf(s, w), pc.resume);
        assert ContextOf(t, w) == ContextOf(s, w).(phase := Closing);
      } else {
        assert ContextOf(t, w) == ContextOf(s, w);
      }
    }
  }

  lemma FailPushKeeps(s: State, c: Conn)
    requires Inv(s) && CanFailPush(s, c)
    ensures Inv(DoFailPush(s, c))
  {
    FailPushWaiters(s, c);
    hide WaiterOk, HasRealTerminal;
    var t := DoFailPush(s, c);
    assert ReaderOk(s, c);
    forall d | d in t.readers ensures ReaderOk(t, d) { assert ReaderOk(s, d); }
  }

  // fail never finds `done` closed.
  lemma FailSkipNever(s: State, c: Conn)
    requires Inv(s)
    ensures !CanFailSkip(s, c)
  {
    if CanFailSkip(s, c) {
      var w := s.readers[c].pc.w;
      assert ReaderOk(s, c);
      assert WaiterOk(s, w);
      PlaceFacts(s.table[w], ContextOf(s, w));
    }
  }

  lemma FailCloseWaiters(s: State, c: Conn)
    requires Inv(s) && CanFailClose(s, c)
    ensures WaitersOk(DoFailClose(s, c))
  {
    hide LocalOk, Real, DispatchedFor, HasRealTerminal;
    var t := DoFailClose(s, c);
    assert ReaderOk(s, c);
    var pc := s.readers[c].pc;
    forall w | 0 <= w < |t.table| ensures WaiterOk(t, w) {
      assert WaiterOk(s, w);
      if w == pc.w {
        FailCloseLocal(s.table[w], ContextOf(s, w));
        assert ContextOf(t, w) == ContextOf(s, w).(phase := Untouched);
      } else {
        assert ContextOf(t, w) == ContextOf(s, w);
      }
    }
  }

  lemma FailCloseKeeps(s: State, c: Conn)
    requires Inv(s) && CanFailClose(s, c)
    ensures Inv(DoFailClose(s, c))
  {
    FailCloseWaiters(s, c);
    hide WaiterOk, HasRealTerminal;
    var t := DoFailClose(s, c);
    assert ReaderOk(s, c);
    forall d | d in t.readers ensures ReaderOk(t, d) { assert ReaderOk(s, d); }
  }

  lemma SendTaskWaiters(s: State, key: Key)
    requires Inv(s) && s.lock.None?
    ensures WaitersOk(DoSendTask(s, key))
  {
    hide LocalOk, Real, DispatchedFor, HasRealTerminal;
    var t := DoSendTask(s, key);
    if key in s.waiters { MapEntry(s, key); }
    if key.agentId in s.runtimes { assert ReaderOk(s, s.runtimes[key.agentId]); }
    forall w | 0 <= w < |t.table| ensures WaiterOk(t, w) {
      if w < |s.table| {
        assert WaiterOk(s, w);
        PlaceFacts(s.table[w], ContextOf(s, w));
        if key in s.waiters && s.waiters[key] == w { TakeOutLocal(s.table[w], ContextOf(s, w), |s.table|); }
        assert ContextOf(t, w) == ContextOf(s, w).(inMap := ContextOf(t, w).inMap);
      } else {
        FreshLocal(s, key);
      }
    }
  }

  lemma SendTaskKeeps(s: State, key: Key)
    requires Inv(s) && s.lock.None?
    ensures Inv(DoSendTask(s, key))
  {
    SendTaskWaiters(s, key);
    hide WaiterOk, HasRealTerminal;
    var t := DoSendTask(s, key);
    if key in s.waiters { MapEntry(s, key); }
    forall d | d in t.readers ensures ReaderOk(t, d) { assert ReaderOk(s, d); }
  }

  lemma ReadingWaiters(s: State, t: State, v: WaiterId)
    requires Inv(s) && ReadingStep(s, t, v)
    ensures WaitersOk(t)
  {
    hide LocalOk, Real, DispatchedFor, HasRealTerminal;
    forall w | 0 <= w < |t.table| ensures WaiterOk(t, w) {
      assert WaiterOk(s, w);
      assert ContextOf(t, w) == ContextOf(s, w);
    }
  }

  lemma ReadingKeeps(s: State, t: State, v: WaiterId)
    requires Inv(s) && ReadingStep(s, t, v)
    ensures Inv(t)
  {
    ReadingWaiters(s, t, v);
    hide WaiterOk, HasRealTerminal;
    forall d | d in t.readers ensures ReaderOk(t, d) { assert ReaderOk(s, d); }
  }

  lemma LeaveLocals(s: State, v: WaiterId)
    requires Inv(s) && CanLeave(s, v)
    ensures forall w :: 0 <= w < |DoLeave(s, v).table| ==> LocalOk(DoLeave(s, v).table[w], ContextOf(DoLeave(s, v), w))
  {
    hide LocalOk, Real, DispatchedFor, HasRealTerminal;
    var t := DoLeave(s, v);
    var target := TakenOut(s, v);
    assert WaiterOk(s, v);
    TakeOutEffect(s, v);
    assert s.table[v].consumer.Leaving? && s.lock.None?;
    assert t == SetWaiter(TakeOut(s, v), v, TakeOut(s, v).table[v].(consumer := Consumer.Cancelling(target)));
    hide DoLeave, CanLeave, TakeOut, TakenOut;
    forall w | 0 <= w < |t.table| ensures LocalOk(t.table[w], ContextOf(t, w)) {
      assert WaiterOk(s, w);
      var x, cx := s.table[w], ContextOf(s, w);
      PlaceFacts(x, cx);
      if target == Some(w) {
        TakeOutLocal(x, cx, v);
      }
      assert ContextOf(t, w) == cx.(inMap := cx.inMap && target != Some(w));
      if w == v { LeavingLocal(t.table[w].(consumer := Leaving), ContextOf(t, w), target); }
    }
  }

  lemma LeaveSameLinks(s: State, v: WaiterId)
    requires Inv(s) && CanLeave(s, v)
    ensures SameLinks(s, DoLeave(s, v))
  {
    TakeOutEffect(s, v);
    hide Inv, TakeOut;
  }

  lemma LeaveLinks(s: State, v: WaiterId, w: WaiterId)
    requires Inv(s) && CanLeave(s, v) && w < |s.table|
    ensures w < |DoLeave(s, v).table| && LinksOk(DoLeave(s, v), w)
  {
    assert WaiterOk(s, v) && WaiterOk(s, w);
    TakeOutEffect(s, v);
    LeaveSameLinks(s, v);
    hide Inv, WaiterOk, TakeOut, LinksOk, HasRealTerminal, SameLinks;
    SameLinksOk(s, DoLeave(s, v), w, v);
  }

  lemma LeaveWaiters(s: State, v: WaiterId)
    requires Inv(s) && CanLeave(s, v)
    ensures WaitersOk(DoLeave(s, v))
  {
    LeaveLocals(s, v);
    forall w | 0 <= w < |DoLeave(s, v).table| ensures WaiterOk(DoLeave(s, v), w) {
      LeaveLinks(s, v, w);
    }
  }

  lemma LeaveKeeps(s: State, v: WaiterId)
    requires Inv(s) && CanLeave(s, v)
    ensures Inv(DoLeave(s, v))
  {
    LeaveWaiters(s, v);
    hide WaiterOk, HasRealTerminal;
    var t := DoLeave(s, v);
    forall d | d in t.readers ensures ReaderOk(t, d) { assert ReaderOk(s, d); }
  }

  lemma LeaveCloseLocals(s: State, v: WaiterId)
    requires Inv(s) && CanLeaveClose(s, v)
    ensures forall w :: 0 <= w < |DoLeaveClose(s, v).table| ==> LocalOk(DoLeaveClose(s, v).table[w], ContextOf(DoLeaveClose(s, v), w))
  {
    hide LocalOk, Real, DispatchedFor, HasRealTerminal;
    var t := DoLeaveClose(s, v);
    var target := s.table[v].consumer.target;
    assert WaiterOk(s, v);
    CloseTargetEffect(s, target);
    assert s.table[v].consumer.Cancelling?;
    assert t == SetWaiter(CloseTarget(s, target), v, CloseTarget(s, target).table[v].(consumer := Gone));
    hide DoLeaveClose, CanLeaveClose, CloseTarget;
    forall w | 0 <= w < |t.table| ensures LocalOk(t.table[w], ContextOf(t, w)) {
      assert WaiterOk(s, w);
      PlaceFacts(s.table[w], ContextOf(s, w));
      if target == Some(w) { CloseLocal(s.table[w], ContextOf(s, w)); }
      assert ContextOf(t, w) == ContextOf(s, w);
      if w == v { GoneLocal(t.table[w].(consumer := s.table[v].consumer), ContextOf(t, w)); }
    }
  }

  lemma LeaveCloseSameLinks(s: State, v: WaiterId)
    requires CanLeaveClose(s, v) && TargetOk(s, s.table[v].consumer.target)
    ensures SameLinks(s, DoLeaveClose(s, v))
  {
    CloseTargetEffect(s, s.table[v].consumer.target);
    hide CloseTarget;
  }

  lemma LeaveCloseLinks(s: State, v: WaiterId, w: WaiterId)
    requires Inv(s) && CanLeaveClose(s, v) && w < |s.table|
    ensures w < |DoLeaveClose(s, v).table| && LinksOk(DoLeaveClose(s, v), w)
  {
    assert WaiterOk(s, v) && WaiterOk(s, w);
    CloseTargetEffect(s, s.table[v].consumer.target);
    LeaveCloseSameLinks(s, v);
    hide Inv, WaiterOk, CloseTarget, LinksOk, HasRealTerminal, SameLinks;
    SameLinksOk(s, DoLeaveClose(s, v), w, v);
  }

  lemma LeaveCloseWaiters(s: State, v: WaiterId)
    requires Inv(s) && CanLeaveClose(s, v)
    ensures WaitersOk(DoLeaveClose(s, v))
  {
    LeaveCloseLocals(s, v);
    forall w | 0 <= w < |DoLeaveClose(s, v).table| ensures WaiterOk(DoLeaveClose(s, v), w) {
      LeaveCloseLinks(s, v, w);
    }
  }

  lemma LeaveCloseKeeps(s: State, v: WaiterId)
    requires Inv(s) && CanLeaveClose(s, v)
    ensures Inv(DoLeaveClose(s, v))
  {
    LeaveCloseWaiters(s, v);
    hide WaiterOk, HasRealTerminal;
    var t := DoLeaveClose(s, v);
    forall d | d in t.readers ensures ReaderOk(t, d) { assert ReaderOk(s, d); }
  }

  lemma StepKeeps(s: State, a: Action)
    requires Inv(s) && Can(s, a)
    ensures Inv(Do(s, a))
  {
    match a
    case Connect(c, agentId) => ConnectKeeps(s, c, agentId);
    case Register(c) => RegisterKeeps(s, c);
    case ReadEvent(c, e) => ReadEventKeeps(s, c, e);
    case ReadError(c) => ReadErrorKeeps(s, c);
    case Snapshot(c) => SnapshotKeeps(s, c);
    case LockWaiter(c) => LockWaiterKeeps(s, c);
    case Push(c) => PushKeeps(s, c);
    case Drop(c) => DropKeeps(s, c);
    case Retire(c) => RetireKeeps(s, c);
    case CloseDone(c) => CloseDoneKeeps(s, c);
    case Unregister(c) => UnregisterKeeps(s, c);
    case SweepOne(c, key) => SweepOneKeeps(s, c, key);
    case SweepEnd(c) => SweepEndKeeps(s, c);
    case FailPush(c) => FailPushKeeps(s, c);
    case FailSkip(c) => FailSkipNever(s, c);
    case FailClose(c) => FailCloseKeeps(s, c);
    case SendTask(key) => SendTaskKeeps(s, key);
    case Leave(w) => LeaveKeeps(s, w);
    case LeaveClose(w) => LeaveCloseKeeps(s, w);
    case WriteTask(w, ok) => WriteTaskLocal(s, w, ok); ReadingKeeps(s, DoWriteTask(s, w, ok), w);
    case Receive(w) => ReceiveLocal(s, w); ReadingKeeps(s, DoReceive(s, w), w);
    case Respond(w, ok) => RespondLocal(s, w, ok); ReadingKeeps(s, DoRespond(s, w, ok), w);
  }

  lemma {:induction false} RunKeeps(s: State, run: seq<Action>)
    requires Inv(s) && Exec(s, run).Some?
    ensures Inv(Exec(s, run).value)
    decreases |run|
  {
    if run != [] {
      StepKeeps(s, run[0]);
      RunKeeps(Do(s, run[0]), run[1..]);
    }
  }

  lemma ReachableInv(s: State)
    requires Reachable(s)
    ensures Inv(s)
  {
    var run :| Exec(INITIAL, run) == Some(s);
    assert Inv(INITIAL);
    RunKeeps(INITIAL, run);
  }
}

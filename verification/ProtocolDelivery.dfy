/**
 What a browser sees: delivery theorems of the chat-task protocol, for every
 interleaving of browsers, runtime connections, replacements and disconnects.
 */
module ProtocolDelivery {
  import opened Wrappers
  import opened Envelopes
  import opened Protocol
  import opened ProtocolInvariant

  // ----- reading the local invariant -----

  // Up to any position with no synthetic event before it, a channel carries exactly the
  // runtime's events.
  lemma {:induction false} RealPrefix(items: seq<Item>, n: nat)
    requires n <= |items| && NoSynthetic(items[..n])
    ensures Events(items)[..n] <= Real(items)
    ensures n == |items| ==> Events(items) == Real(items)
  {
    if items != [] {
      var front := items[..|items| - 1];
      assert Events(items) == Events(front) + [items[|items| - 1].event];
      if n < |items| {
        assert front[..n] == items[..n];
        RealPrefix(front, n);
        assert Events(items)[..n] == Events(front)[..n];
      } else {
        assert forall i :: 0 <= i < n ==> items[i] == items[..n][i];
        RealPrefix(front, |front|);
      }
    }
  }

  lemma WaiterFacts(s: State, w: WaiterId)
    requires Inv(s) && w < |s.table|
    ensures LinksOk(s, w) && LocalOk(s.table[w], ContextOf(s, w))
  {
    assert WaiterOk(s, w);
  }

  // What the first n events of a channel are, when only the last of them may be final.
  ghost predicate IsDelivery(events: seq<Envelope>, offered: seq<Envelope>, key: Key) {
    || events <= CutAtTerminal(offered)
    || (&& |events| > 0
        && IsSweepError(events[|events| - 1], key)
        && NoneBeforeLast(events)
        && events[..|events| - 1] <= offered)
  }

  lemma PrefixIsDelivery(x: Waiter, cx: Context, n: nat)
    requires StreamOk(x, cx) && n <= |x.sent|
    requires NoSynthetic(x.sent[..n]) || OnlySyntheticAt(x.sent[..n], n - 1)
    requires forall i :: 0 <= i < n - 1 ==> !IsTerminal(x.sent[i].event)
    ensures IsDelivery(Events(x.sent)[..n], cx.offered, x.key)
    ensures NoSynthetic(x.sent[..n]) && n > 0 && IsTerminal(x.sent[n - 1].event) ==>
      Events(x.sent)[..n] == CutAtTerminal(cx.offered)
  {
    hide CutAtTerminal, Real;
    if NoSynthetic(x.sent[..n]) {
      RealPrefixIsDelivery(x, cx, n);
    } else {
      SweptPrefixIsDelivery(x, cx, n);
    }
  }

  lemma RealPrefixIsDelivery(x: Waiter, cx: Context, n: nat)
    requires Real(x.sent) <= cx.offered && n <= |x.sent| && NoSynthetic(x.sent[..n])
    requires forall i :: 0 <= i < n - 1 ==> !IsTerminal(x.sent[i].event)
    ensures Events(x.sent)[..n] <= CutAtTerminal(cx.offered)
    ensures n > 0 && IsTerminal(x.sent[n - 1].event) ==> Events(x.sent)[..n] == CutAtTerminal(cx.offered)
  {
    hide CutAtTerminal, Real;
    var events := Events(x.sent)[..n];
    RealPrefix(x.sent, n);
    assert events <= cx.offered;
    assert forall i :: 0 <= i < n ==> events[i] == x.sent[i].event;
    hide NoSynthetic;
    if n == 0 || !IsTerminal(x.sent[n - 1].event) {
      OpenPrefixWithinCut(events, cx.offered);
    } else {
      PrefixWithTerminalIsCut(events, cx.offered);
    }
  }

  lemma SweptPrefixIsDelivery(x: Waiter, cx: Context, n: nat)
    requires Real(x.sent) <= cx.offered && WellAddressed(x.sent, x.key) && 0 < n <= |x.sent|
    requires OnlySyntheticAt(x.sent[..n], n - 1)
    requires forall i :: 0 <= i < n - 1 ==> !IsTerminal(x.sent[i].event)
    ensures IsDelivery(Events(x.sent)[..n], cx.offered, x.key)
  {
    hide CutAtTerminal, Real;
    var events := Events(x.sent)[..n];
    assert x.sent[n - 1] == x.sent[..n][n - 1];
    assert forall i :: 0 <= i < n - 1 ==> x.sent[..n - 1][i] == x.sent[..n][i];
    RealPrefix(x.sent, n - 1);
    assert events[..n - 1] == Events(x.sent)[..n - 1];
    assert forall i :: 0 <= i < n ==> events[i] == x.sent[i].event;
    assert IsSweepError(events[n - 1], x.key);
    hide OnlySyntheticAt, WellAddressed, IsSweepError;
  }

  // Only the last event of a stream cut at its first terminal can be synthetic.
  lemma SyntheticsEndStreams(x: Waiter, cx: Context, n: nat)
    requires LocalOk(x, cx) && n <= |x.sent|
    requires forall i :: 0 <= i < n - 1 ==> !IsTerminal(x.sent[i].event)
    ensures NoSynthetic(x.sent[..n]) || OnlySyntheticAt(x.sent[..n], n - 1)
  {
    hide Real, CutAtTerminal;
    forall i | 0 <= i < n - 1 ensures !x.sent[..n][i].synthetic {
      assert x.sent[..n][i] == x.sent[i];
    }
  }

  // What was written is what was taken first, with a final event at most at its end.
  lemma WrittenEndsOnce(x: Waiter)
    requires ConsumerOk(x)
    ensures |x.written| <= |x.sent| && x.written == Events(x.sent)[..|x.written|]
    ensures forall i :: 0 <= i < |x.written| - 1 ==> !IsTerminal(x.sent[i].event)
  {
    assert NoneBeforeLast(x.written);
    assert forall i :: 0 <= i < |x.written| ==> x.written[i] == Events(x.sent)[i] == x.sent[i].event;
  }

  // ----- safety: holds for every waiter, whatever ids browsers choose -----

  // In every interleaving, the events whose responses a browser got are a prefix, without
  // loss, duplicate or reordering, of what its task's connection dispatched for its key
  // since the waiter was inserted, cut at the first terminal event; or such a prefix
  // without terminal event, followed by one error of a sweep.
  lemma BrowserSeesPrefix(s: State, w: WaiterId)
    requires Reachable(s) && w < |s.table|
    ensures IsDelivery(s.table[w].written, Offered(s, w), s.table[w].key)
  {
    ReachableInv(s);
    WaiterFacts(s, w);
    var x, cx := s.table[w], ContextOf(s, w);
    WrittenEndsOnce(x);
    hide Inv, ConsumerOk, IsDelivery, SweepOk, PlaceOk, LinksOk, Reachable;
    SyntheticsEndStreams(x, cx, |x.written|);
    PrefixIsDelivery(x, cx, |x.written|);
  }

  // Sixteen events wait for a browser at most, and a delivery goes on exactly while there are fewer.
  lemma SixteenWait(s: State, w: WaiterId)
    requires Reachable(s) && w < |s.table|
    ensures 0 <= |s.table[w].sent| - s.table[w].taken <= 16
    ensures forall c :: c in s.readers && s.readers[c].pc.Selecting? && s.readers[c].pc.w == w ==>
      (Can(s, Push(c)) <==> |s.table[w].sent| - s.table[w].taken < 16)
  {
    ReachableInv(s);
    WaiterFacts(s, w);
    hide Inv, Reachable, LinksOk;
  }

  // Every event ever queued carries the waiter's own agent and message id, and those that
  // no sweep made came, in order, from the connection its task was sent on, even when that
  // connection was replaced between Dispatch's snapshot and its delivery.
  lemma QueuedEventsComeFromOwnConnection(s: State, w: WaiterId)
    requires Reachable(s) && w < |s.table|
    ensures WellAddressed(s.table[w].sent, s.table[w].key)
    ensures Real(s.table[w].sent) <= Offered(s, w)
  {
    ReachableInv(s);
    WaiterFacts(s, w);
  }

  // What lies in the map belongs to a registered agent and to its present connection,
  // except while a sweep of that very agent is running; and its `done` is open.
  lemma MapHoldsCurrentWaiters(s: State, key: Key)
    requires Reachable(s) && key in s.waiters
    ensures var w := s.waiters[key];
      && w < |s.table| && s.table[w].key == key && !s.table[w].done
      && (!BeingSwept(s, key.agentId) ==>
            key.agentId in s.runtimes && s.runtimes[key.agentId] == s.table[w].conn)
  {
    ReachableInv(s);
    MapEntry(s, key);
  }

  const REPLACED := "runtime connection replaced"
  const DISCONNECTED := "runtime disconnected"

  // What a sweep sends is an error with one of two texts, addressed to the chat it ends.
  ghost predicate TellsOfSweep(e: Envelope, key: Key, reason: string) {
    && e.typ.Error?
    && e.agentId == key.agentId && e.messageId == key.messageId
    && e.payload.text == Some(reason) && e.payload.exitCode.None?
    && e.sessionId == "" && e.number == 0
  }

  // No sweep makes a broken chat look complete.
  lemma SweepsSendErrors(s: State, w: WaiterId, i: nat)
    requires Reachable(s) && w < |s.table| && i < |s.table[w].sent| && s.table[w].sent[i].synthetic
    ensures var e, key := s.table[w].sent[i].event, s.table[w].key;
      TellsOfSweep(e, key, REPLACED) || TellsOfSweep(e, key, DISCONNECTED)
  {
    ReachableInv(s);
    WaiterFacts(s, w);
    var x := s.table[w];
    assert IsSweepError(x.sent[i].event, x.key);
    hide Inv, LocalOk, LinksOk, Reachable;
  }

  // A waiter that a sweep took out gets exactly one error, before its `done` closes.
  lemma SweptGetsExactlyOneError(s: State, w: WaiterId)
    requires Reachable(s) && w < |s.table| && s.table[w].fate.Swept?
    ensures s.table[w].done ==> exists n :: OnlyErrorAt(s.table[w].sent, n)
    ensures NoSynthetic(s.table[w].sent) || exists n :: OnlyErrorAt(s.table[w].sent, n)
  {
    ReachableInv(s);
    WaiterFacts(s, w);
    hide Inv, LinksOk, PlaceOk, StreamOk, ConsumerOk, Reachable;
    if n :| OnlySyntheticAt(s.table[w].sent, n) {
      SweepsSendErrors(s, w, n);
      assert OnlyErrorAt(s.table[w].sent, n);
    }
  }

  ghost predicate OnlyErrorAt(items: seq<Item>, n: int) {
    OnlySyntheticAt(items, n) && items[n].event.typ.Error?
  }

  // No other waiter ever gets one.
  lemma OnlySweptGetErrors(s: State, w: WaiterId)
    requires Reachable(s) && w < |s.table| && !s.table[w].fate.Swept?
    ensures NoSynthetic(s.table[w].sent)
  {
    ReachableInv(s);
    WaiterFacts(s, w);
  }

  // ----- completeness: needs the message id to be fresh -----

  // No other task was ever sent with this (agent, message id). That is enough; what is needed
  // at the time of sending is said by ProtocolStranding.ReuseIsUnsafeIff.
  ghost predicate FreshId(s: State, w: WaiterId)
    requires w < |s.table|
  {
    forall v :: 0 <= v < |s.table| && v != w ==> s.table[v].key != s.table[w].key
  }

  // A removeWaiter call made for another task with the same id took this waiter out of the map.
  predicate RemovedByOther(x: Waiter, w: WaiterId) {
    x.fate.Removed? && x.fate.remover != w
  }

  // Another task with the same id took this waiter's place, or took it out of the map.
  predicate Displaced(s: State, w: WaiterId)
    requires w < |s.table|
  {
    s.table[w].fate.Overwritten? || RemovedByOther(s.table[w], w)
  }

  lemma FreshIdsAreNotDisplaced(s: State, w: WaiterId)
    requires Reachable(s) && w < |s.table| && FreshId(s, w)
    ensures !Displaced(s, w)
  {
    ReachableInv(s);
    WaiterFacts(s, w);
  }

  predicate StillReading(x: Waiter) {
    x.consumer.Sending? || x.consumer.Receiving? || x.consumer.Writing?
  }

  lemma EventsHaveTerminal(x: Waiter)
    ensures HasRealTerminal(x.sent) ==> !NoTerminal(Events(x.sent))
    ensures (exists n :: OnlySyntheticAt(x.sent, n)) && WellAddressed(x.sent, x.key) ==>
      !NoTerminal(Events(x.sent))
  {
    if HasRealTerminal(x.sent) {
      var i :| 0 <= i < |x.sent| && !x.sent[i].synthetic && IsTerminal(x.sent[i].event);
      assert Events(x.sent)[i] == x.sent[i].event;
    }
    if (exists n :: OnlySyntheticAt(x.sent, n)) && WellAddressed(x.sent, x.key) {
      var n :| OnlySyntheticAt(x.sent, n);
      assert Events(x.sent)[n] == x.sent[n].event;
    }
  }

  // The key lemma: a closed `done` means that the browser has a final event to read, or has
  // gone, unless a removeWaiter call made for another chat took its waiter out of the map.
  lemma ClosedMeansAnswered(s: State, w: WaiterId)
    requires Reachable(s) && w < |s.table| && s.table[w].done && !RemovedByOther(s.table[w], w)
    ensures !NoTerminal(Events(s.table[w].sent)) || !StillReading(s.table[w])
  {
    ReachableInv(s);
    WaiterFacts(s, w);
    EventsHaveTerminal(s.table[w]);
    if s.table[w].fate.Swept? { SweptGetsExactlyOneError(s, w); }
  }

  // A browser still reading, whose connection is not in the middle of a delivery to it and
  // whom no sweep is about to fail, has been sent all there is: everything its connection
  // dispatched for it up to the first terminal event, or a part without terminal event and
  // then a sweep's error. If no final event has come yet, the waiter is still in the map.
  lemma NothingIsLost(s: State, w: WaiterId)
    requires Reachable(s) && w < |s.table| && !Displaced(s, w) && StillReading(s.table[w])
    requires !ContextOf(s, w).flight.Carrying? && !ContextOf(s, w).phase.Failing?
    ensures var visible := CutAtTerminal(Events(s.table[w].sent));
      && IsDelivery(visible, Offered(s, w), s.table[w].key)
      && (visible == CutAtTerminal(Offered(s, w))
          || (|visible| > 0 && IsSweepError(visible[|visible| - 1], s.table[w].key)))
      && (NoTerminal(visible) ==>
            && s.table[w].key in s.waiters && s.waiters[s.table[w].key] == w
            && visible == Offered(s, w))
  {
    ReachableInv(s);
    WaiterFacts(s, w);
    var x, cx := s.table[w], ContextOf(s, w);
    EventsHaveTerminal(x);
    if x.fate.Swept? { SweptGetsExactlyOneError(s, w); }
    VisibleStream(x, cx);
    CutIsPrefix(Events(x.sent));
  }

  lemma VisibleStream(x: Waiter, cx: Context)
    requires LocalOk(x, cx) && !cx.flight.Carrying?
    requires NoTerminal(Events(x.sent)) ==> x.fate.Live?
    ensures var visible := CutAtTerminal(Events(x.sent));
      && IsDelivery(visible, cx.offered, x.key)
      && (visible == CutAtTerminal(cx.offered)
          || (|visible| > 0 && IsSweepError(visible[|visible| - 1], x.key)))
      && (NoTerminal(visible) ==> cx.inMap && visible == cx.offered)
  {
    var events := Events(x.sent);
    CutIsPrefix(events);
    var visible := CutAtTerminal(events);
    var n := |visible|;
    hide CutAtTerminal, Real;
    assert visible == events[..n];
    if NoTerminal(events) {
      assert NoSynthetic(x.sent[..|x.sent|]);
      RealPrefix(x.sent, |x.sent|);
      CutIsPrefix(cx.offered);
    } else {
      assert n > 0 && visible[n - 1] == x.sent[n - 1].event;
      forall i | 0 <= i < n - 1 ensures !IsTerminal(x.sent[i].event) {
        assert visible[..n - 1][i] == events[i];
      }
      SyntheticsEndStreams(x, cx, n);
      PrefixIsDelivery(x, cx, n);
      if !NoSynthetic(x.sent[..n]) { assert x.sent[..n][n - 1] == x.sent[n - 1]; }
    }
  }

  // A chat nobody disturbed: the browser went away of its own accord with a final event and
  // no sweep hit its waiter. It was written exactly the dispatched stream up to the first
  // terminal event.
  lemma UndisturbedChatIsComplete(s: State, w: WaiterId)
    requires Reachable(s) && w < |s.table|
    requires !StillReading(s.table[w]) && !s.table[w].quit && !s.table[w].fate.Swept?
    ensures s.table[w].written == CutAtTerminal(Offered(s, w))
    ensures EndsWithItsTerminal(s.table[w].written)
  {
    ReachableInv(s);
    WaiterFacts(s, w);
    var x, cx := s.table[w], ContextOf(s, w);
    assert NoSynthetic(x.sent[..|x.written|]);
    RealPrefix(x.sent, |x.written|);
    PrefixWithTerminalIsCut(x.written, cx.offered);
  }

  // ----- a reused id breaks completeness -----

  const REUSED := Key("agent", "message")

  // Two tasks with one id, the first of which is never written to the runtime: its
  // removeWaiter takes out the second waiter and closes its `done`.
  const REUSING_RUN: seq<Action> :=
    [Connect(0, "agent"), Register(0), SendTask(REUSED), SendTask(REUSED)]
    + [WriteTask(1, true), WriteTask(0, false), Leave(0), LeaveClose(0)]

  lemma ReusedIdStrandsBrowser()
    ensures Exec(INITIAL, REUSING_RUN) == Some(Stranded(3))
    ensures var x := Stranded(3).table[1];
      x.done && x.consumer.Receiving? && x.sent == [] && Displaced(Stranded(3), 1)
  {
    var first := [Connect(0, "agent"), Register(0), SendTask(REUSED), SendTask(REUSED)];
    var second := [WriteTask(1, true), WriteTask(0, false), Leave(0), LeaveClose(0)];
    TwoTasks();
    OneStrands();
    ExecAppend(INITIAL, first, second);
  }

  // The four states after the two tasks: both writes answered, waiter 1 taken out, closed.
  function Stranded(n: nat): (s: State)
    ensures |s.table| == 2
  {
    var x := NewWaiter(REUSED, 0, 0);
    var x0 := x.(fate := Overwritten(1));
    State(
      map["agent" := 0],
      if n < 2 then map[REUSED := 1] else map[],
      [if n == 0 then x0
       else x0.(quit := true,
                consumer := if n == 1 then Leaving else if n == 2 then Consumer.Cancelling(Some(1)) else Gone),
       if n == 0 then x
       else x.(consumer := Receiving, fate := if n == 1 then Live else Removed(0), done := n >= 3)],
      None, map[0 := Reader("agent", Reading)], [])
  }

  lemma TwoTasks()
    ensures Exec(INITIAL, [Connect(0, "agent"), Register(0), SendTask(REUSED), SendTask(REUSED)])
         == Some(Stranded(0))
  {
    var run := [Connect(0, "agent"), Register(0), SendTask(REUSED), SendTask(REUSED)];
    var x := NewWaiter(REUSED, 0, 0);
    var s1 := DoConnect(INITIAL, 0, "agent");
    var s2 := State(map["agent" := 0], map[], [], None, map[0 := Reader("agent", Reading)], []);
    var s3 := s2.(waiters := map[REUSED := 0], table := [x]);
    assert Step(INITIAL, run[0], s1) && Step(s1, run[1], s2);
    assert Step(s2, run[2], s3) && Step(s3, run[3], Stranded(0));
    ExecFour(INITIAL, run, s1, s2, s3, Stranded(0));
  }

  lemma OneStrands()
    ensures Exec(Stranded(0), [WriteTask(1, true), WriteTask(0, false), Leave(0), LeaveClose(0)])
         == Some(Stranded(3))
  {
    var run := [WriteTask(1, true), WriteTask(0, false), Leave(0), LeaveClose(0)];
    var s1 := DoWriteTask(Stranded(0), 1, true);
    WritesAnswered();
    TakenOutByOther();
    ClosedByOther();
    hide Can, Do, DoWriteTask, Stranded;
    ExecFour(Stranded(0), run, s1, Stranded(1), Stranded(2), Stranded(3));
  }

  lemma WritesAnswered()
    ensures var s1 := DoWriteTask(Stranded(0), 1, true);
      Step(Stranded(0), WriteTask(1, true), s1) && Step(s1, WriteTask(0, false), Stranded(1))
  {
  }

  lemma TakenOutByOther()
    ensures Step(Stranded(1), Leave(0), Stranded(2))
  {
    assert Stranded(1).waiters - {REUSED} == map[];
    assert TakenOut(Stranded(1), 0) == Some(1);
  }

  lemma ClosedByOther()
    ensures Step(Stranded(2), LeaveClose(0), Stranded(3))
  {
  }

  // ----- runs, put together -----

  lemma {:induction false} ExecAppend(s: State, first: seq<Action>, second: seq<Action>)
    requires Exec(s, first).Some?
    ensures Exec(s, first + second) == Exec(Exec(s, first).value, second)
    decreases |first|
  {
    if first == [] {
      assert first + second == second;
    } else {
      assert (first + second)[1..] == first[1..] + second;
      ExecAppend(Do(s, first[0]), first[1..], second);
    }
  }

  ghost predicate Step(s: State, a: Action, t: State) {
    Can(s, a) && Do(s, a) == t
  }

  lemma ExecFour(s: State, run: seq<Action>, s1: State, s2: State, s3: State, s4: State)
    requires |run| == 4
    requires Step(s, run[0], s1) && Step(s1, run[1], s2) && Step(s2, run[2], s3) && Step(s3, run[3], s4)
    ensures Exec(s, run) == Some(s4)
  {
    hide Can, Do;
    assert Exec(s3, run[3..]) == Exec(s4, run[3..][1..]);
    assert run[2..][1..] == run[3..];
    assert Exec(s2, run[2..]) == Exec(s3, run[3..]);
    assert run[1..][1..] == run[2..];
    assert Exec(s1, run[1..]) == Exec(s2, run[2..]);
  }
}

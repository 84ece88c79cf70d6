/**
 When the registry's lock can get stuck: a browser that gives up on a full queue while a sweep
 is waiting to write to it locks the registry for good.
 */
module ProtocolProgress {
  import opened Wrappers
  import opened Envelopes
  import opened Protocol
  import opened ProtocolInvariant
  import opened ProtocolDelivery

  // ----- the waits -----

  // A sweep holds r.mu and waits for room on a queue whose browser waits for r.mu.
  ghost predicate Jammed(s: State) {
    && s.lock.Some? && s.lock.value in s.readers
    && var pc := s.readers[s.lock.value].pc;
       && (pc.FailLocking? || pc.FailSelecting?) && pc.w < |s.table|
       && var x := s.table[pc.w];
          && (pc.FailLocking? ==> x.holder.Some?)
          && Full(x) && !x.done && x.consumer.Leaving?
  }

  // The actions that the goroutine holding r.mu may be waiting for: its own, that of the
  // goroutine holding the waiter's mutex, and that of the waiter's browser.
  predicate OnLockChain(s: State, a: Action) {
    s.lock.Some? && s.lock.value in s.readers &&
    var c := s.lock.value;
    var pc := s.readers[c].pc;
    match a
    case SweepOne(d, _) => d == c
    case SweepEnd(d) => d == c
    case LockWaiter(d) => d == c
    case FailPush(d) => d == c
    case FailSkip(d) => d == c
    case FailClose(d) => d == c
    case Push(d) => Waits(pc) && pc.w < |s.table| && s.table[pc.w].holder == Some(d)
    case Drop(d) => Waits(pc) && pc.w < |s.table| && s.table[pc.w].holder == Some(d)
    case WriteTask(w, _) => Waits(pc) && pc.w == w
    case Receive(w) => Waits(pc) && pc.w == w
    case Respond(w, _) => Waits(pc) && pc.w == w
    case Leave(w) => Waits(pc) && pc.w == w
    case LeaveClose(w) => Waits(pc) && pc.w == w
    case _ => false
  }

  predicate Waits(pc: Pc) {
    pc.FailLocking? || pc.FailSelecting?
  }

  // A full queue has something to read; unless its browser has stopped reading, it can go on.
  lemma FullQueueConsumer(s: State, w: WaiterId)
    requires Inv(s) && w < |s.table| && Full(s.table[w]) && StillReading(s.table[w])
    ensures Can(s, WriteTask(w, true)) || Can(s, Receive(w)) || Can(s, Respond(w, true))
  {
  }

  // After its final event, a browser has at most one event left on its queue.
  lemma LittleAfterTheEnd(s: State, w: WaiterId)
    requires Inv(s) && w < |s.table| && !StillReading(s.table[w]) && !s.table[w].quit
    ensures |s.table[w].sent| <= s.table[w].taken + 1
  {
    WaiterFacts(s, w);
    LittleAfter(s.table[w], ContextOf(s, w));
  }

  // At most one event follows the first final one.
  lemma AtMostOneMore(items: seq<Item>, j: nat)
    requires j < |items| && RealTerminalLast(items) && IsTerminal(items[j].event)
    requires NoSynthetic(items) || OnlySyntheticAt(items, |items| - 1) || OnlySyntheticAt(items, |items| - 2)
    ensures |items| <= j + 2
  {
    var n := |items|;
    var tail := if n >= 2 then items[n - 2].synthetic && items[n - 1].synthetic else false;
    assert !tail;
    forall k | j < k < n ensures items[j].synthetic || items[k].synthetic {
    }
  }

  lemma LittleAfter(x: Waiter, cx: Context)
    requires LocalOk(x, cx) && !StillReading(x) && !x.quit
    ensures |x.sent| <= x.taken + 1
  {
    hide Real;
    var n := |x.sent|;
    var j := x.taken - 1;
    assert x.written[j] == Events(x.sent)[j];
    assert NoSynthetic(x.sent) || OnlySyntheticAt(x.sent, n - 1) || OnlySyntheticAt(x.sent, n - 2);
    AtMostOneMore(x.sent, j);
  }

  // ----- exactly when the registry lock is stuck -----

  lemma SweeperCanGoOn(s: State, c: Conn) returns (a: Action)
    requires Inv(s) && s.lock == Some(c) && c in s.readers && !Waits(s.readers[c].pc)
    ensures Can(s, a) && OnLockChain(s, a)
  {
    assert ReaderOk(s, c);
    if s.readers[c].pc.FailClosing? {
      a := FailClose(c);
    } else if key :| key in s.waiters && key.agentId == s.readers[c].agentId {
      MapEntry(s, key);
      a := SweepOne(c, key);
    } else {
      a := SweepEnd(c);
    }
  }

  lemma WaitingSweepCanGoOn(s: State, c: Conn) returns (a: Action)
    requires Inv(s) && s.lock == Some(c) && c in s.readers && Waits(s.readers[c].pc) && !Jammed(s)
    ensures Can(s, a) && OnLockChain(s, a)
  {
    assert ReaderOk(s, c);
    var pc := s.readers[c].pc;
    var w := pc.w;
    WaiterFacts(s, w);
    PlaceFacts(s.table[w], ContextOf(s, w));
    var x := s.table[w];
    if pc.FailLocking? && x.holder.None? {
      a := LockWaiter(c);
    } else if !Full(x) {
      a := if pc.FailSelecting? then FailPush(c) else Push(x.holder.value);
      if pc.FailLocking? { assert ReaderOk(s, x.holder.value); }
    } else {
      FullQueueConsumer(s, w);
      a := if x.consumer.Sending? then WriteTask(w, true)
           else if x.consumer.Receiving? then Receive(w) else Respond(w, true);
    }
  }

  lemma JammedCannotGoOn(s: State, a: Action)
    requires Inv(s) && Jammed(s) && OnLockChain(s, a)
    ensures !Can(s, a)
  {
    var c := s.lock.value;
    assert ReaderOk(s, c);
    var w := s.readers[c].pc.w;
    WaiterFacts(s, w);
    if s.table[w].holder.Some? { assert ReaderOk(s, s.table[w].holder.value); }
  }

  // Whenever r.mu is held across steps, somebody it waits for can move, unless jammed.
  lemma LockChainMovesUnlessJammed(s: State)
    requires Reachable(s) && s.lock.Some?
    ensures (exists a :: Can(s, a) && OnLockChain(s, a)) <==> !Jammed(s)
  {
    ReachableInv(s);
    var c := s.lock.value;
    if Jammed(s) {
      forall a | OnLockChain(s, a) ensures !Can(s, a) { JammedCannotGoOn(s, a); }
    } else if Waits(s.readers[c].pc) {
      var a := WaitingSweepCanGoOn(s, c);
    } else {
      var a := SweeperCanGoOn(s, c);
    }
  }

  // ----- no jam when every browser reads to its first final event -----

  // No browser goroutine gave up on a failed write.
  ghost predicate NobodyQuits(s: State) {
    forall w :: 0 <= w < |s.table| ==> !s.table[w].quit
  }

  lemma NoJamIfNobodyQuits(s: State)
    requires Inv(s) && NobodyQuits(s)
    ensures !Jammed(s)
  {
    if Jammed(s) { LittleAfterTheEnd(s, s.readers[s.lock.value].pc.w); }
  }

  lemma ReaderFacts(s: State, c: Conn)
    requires Inv(s) && c in s.readers
    ensures ReaderOk(s, c)
  {
  }

  // Only a sweep contends with the connection's own goroutine for w.mu.
  lemma WaiterMutexIsFree(s: State, c: Conn)
    requires Inv(s) && s.lock.None? && c in s.readers && s.readers[c].pc.Locking?
    ensures s.readers[c].pc.w < |s.table| && s.table[s.readers[c].pc.w].holder.None?
  {
    var w := s.readers[c].pc.w;
    ReaderFacts(s, c);
    WaiterFacts(s, w);
    if s.table[w].holder.Some? { ReaderFacts(s, s.table[w].holder.value); }
  }

  // ----- a jam lasts -----

  lemma JamIsForever(s: State, run: seq<Action>)
    requires Inv(s) && Jammed(s) && Exec(s, run).Some?
    ensures Jammed(Exec(s, run).value) && Exec(s, run).value.lock == s.lock
    decreases |run|
  {
    if run != [] {
      JamSurvives(s, run[0]);
      StepKeeps(s, run[0]);
      JamIsForever(Do(s, run[0]), run[1..]);
    }
  }

  // The waiter that r.mu is held for, out of reach of every goroutine.
  lemma JamFacts(s: State)
    requires Inv(s) && Jammed(s)
    ensures var c := s.lock.value;
      var w := s.readers[c].pc.w;
      && s.table[w].fate.Swept?
      && (s.readers[c].pc.FailSelecting? ==> s.table[w].holder == Some(c))
      && (s.readers[c].pc.FailLocking? ==>
            var d := s.table[w].holder.value;
            d in s.readers && s.readers[d].pc.Selecting? && s.readers[d].pc.w == w)
  {
    var c := s.lock.value;
    ReaderFacts(s, c);
    WaiterFacts(s, s.readers[c].pc.w);
    if s.readers[c].pc.FailLocking? { ReaderFacts(s, s.table[s.readers[c].pc.w].holder.value); }
  }

  lemma JamSurvives(s: State, a: Action)
    requires Inv(s) && Jammed(s) && Can(s, a)
    ensures Jammed(Do(s, a)) && Do(s, a).lock == s.lock
  {
    if ConnOf(a).Some? { JamSurvivesReader(s, a); } else { JamSurvivesOther(s, a); }
  }

  lemma JamSurvivesReader(s: State, a: Action)
    requires Inv(s) && Jammed(s) && Can(s, a) && ConnOf(a).Some?
    ensures Jammed(Do(s, a)) && Do(s, a).lock == s.lock
  {
    JamFacts(s);
    ReaderFacts(s, ConnOf(a).value);
    hide LocalOk, WaitersOk, ReadersOk, MapsOk;
  }

  lemma JamSurvivesOther(s: State, a: Action)
    requires Inv(s) && Jammed(s) && Can(s, a) && ConnOf(a).None?
    ensures Jammed(Do(s, a)) && Do(s, a).lock == s.lock
  {
    JamFacts(s);
    if a.LeaveClose? { WaiterFacts(s, a.w); }
    hide LocalOk, WaitersOk, ReadersOk, MapsOk;
  }

  // The connection goroutine that takes the action, for actions on waiters and on sweeps.
  function ConnOf(a: Action): Option<Conn> {
    match a
    case CloseDone(d) => Some(d)
    case Push(d) => Some(d)
    case Drop(d) => Some(d)
    case FailPush(d) => Some(d)
    case FailSkip(d) => Some(d)
    case FailClose(d) => Some(d)
    case SweepOne(d, _) => Some(d)
    case SweepEnd(d) => Some(d)
    case _ => None
  }

  // ----- what a whole sweep does to the registry -----

  // The run goes from within c's sweep to its end.
  ghost predicate SweepsToItsEnd(s: State, run: seq<Action>, c: Conn)
    decreases |run|
  {
    && run != [] && s.lock == Some(c) && Can(s, run[0])
    && if |run| == 1 then Do(s, run[0]).lock.None? else SweepsToItsEnd(Do(s, run[0]), run[1..], c)
  }

  function WaitersOfOthers(waiters: map<Key, WaiterId>, agentId: string): map<Key, WaiterId> {
    map key | key in waiters && key.agentId != agentId :: waiters[key]
  }

  ghost predicate SweepGoesOn(s: State, t: State, c: Conn)
    requires c in s.readers
  {
    var agentId := s.readers[c].agentId;
    && t.runtimes == s.runtimes
    && c in t.readers && t.readers[c].agentId == agentId
    && WaitersOfOthers(t.waiters, agentId) == WaitersOfOthers(s.waiters, agentId)
    && (t.lock == Some(c) || (t.lock.None? && t.waiters == WaitersOfOthers(t.waiters, agentId)))
  }

  lemma SweepStep(s: State, a: Action, c: Conn)
    requires Inv(s) && s.lock == Some(c) && c in s.readers && Can(s, a)
    ensures SweepGoesOn(s, Do(s, a), c)
  {
    if ConnOf(a).Some? { SweepStepReader(s, a, c); } else { SweepStepOther(s, a, c); }
  }

  lemma SweepStepReader(s: State, a: Action, c: Conn)
    requires Inv(s) && s.lock == Some(c) && c in s.readers && Can(s, a) && ConnOf(a).Some?
    ensures SweepGoesOn(s, Do(s, a), c)
  {
    ReaderFacts(s, c);
    ReaderFacts(s, ConnOf(a).value);
    hide WaitersOk, ReadersOk, MapsOk;
  }

  lemma SweepStepOther(s: State, a: Action, c: Conn)
    requires Inv(s) && s.lock == Some(c) && c in s.readers && Can(s, a) && ConnOf(a).None?
    ensures SweepGoesOn(s, Do(s, a), c)
  {
    hide WaitersOk, ReadersOk, MapsOk, WaitersOfOthers;
  }

  // However it interleaves with deliveries and browsers, a sweep takes out exactly its own
  // agent's waiters, keeps those of every other agent, and no connection is registered or
  // unregistered meanwhile.
  lemma {:induction false} SweepTakesOutExactlyItsAgent(s: State, run: seq<Action>, c: Conn)
    requires Inv(s) && c in s.readers && SweepsToItsEnd(s, run, c)
    ensures Exec(s, run).Some?
    ensures Exec(s, run).value.waiters == WaitersOfOthers(s.waiters, s.readers[c].agentId)
    ensures Exec(s, run).value.runtimes == s.runtimes
    decreases |run|
  {
    SweepStep(s, run[0], c);
    StepKeeps(s, run[0]);
    if |run| == 1 {
      assert Exec(Do(s, run[0]), run[1..]) == Some(Do(s, run[0]));
    } else {
      SweepTakesOutExactlyItsAgent(Do(s, run[0]), run[1..], c);
    }
  }
}

/**
 What is stuck stays stuck; and a run that abandons a connection's reader in a delivery.
 */
module ProtocolAbandoned {
  import opened Wrappers
  import opened Envelopes
  import opened Protocol
  import opened ProtocolInvariant
  import opened ProtocolDelivery
  import opened ProtocolProgress
  import opened ProtocolFrame
  import opened ProtocolStuck
  import opened ProtocolJam

  lemma StuckNeverActs(s: State, x: Actor, a: Action)
    requires Inv(s) && Stuck(s, x) && Can(s, a)
    ensures ActorOf(a) != Some(x)
  {
    if ActorOf(a) == Some(x) {
      if Internal(a) { StuckTakesNoStep(s, x, a); } else { ReadersTakeFromOutside(s, a); }
    }
    hide Inv, Jammed;
  }

  lemma ReadersTakeFromOutside(s: State, a: Action)
    requires Can(s, a) && !Internal(a) && ActorOf(a).Some?
    ensures ActorOf(a).value.Runtime?
    ensures var c := ActorOf(a).value.c; c in s.readers ==> s.readers[c].pc.Reading?
  {
  }

  // Only its own connection's goroutine and a sweep are ever at a waiter.
  lemma WhoIsAt(s: State, d: Conn, w: WaiterId)
    requires Inv(s) && IsAt(s, d, w)
    ensures w < |s.table| && (d == s.table[w].conn || s.lock == Some(d))
  {
    ReaderFacts(s, d);
  }

  lemma BusyElsewhere(s: State, a: Action, w: WaiterId)
    requires Inv(s) && Can(s, a) && w < |s.table|
    requires ActorOf(a) != Some(Runtime(s.table[w].conn))
    requires s.lock.Some? ==> ActorOf(a) != Some(Runtime(s.lock.value))
    ensures FromElsewhere(s, a, w)
  {
    if !FromElsewhere(s, a, w) { WhoIsAt(s, ActorOf(a).value.c, w); }
  }

  // ----- abandoned -----

  lemma NotAtAbandoned(s: State, c: Conn, a: Action)
    requires Inv(s) && Abandoned(s, c) && Can(s, a)
    ensures var w := s.readers[c].pc.w;
      FromElsewhere(s, a, w) && ActorOf(a) != Some(Runtime(c)) && ActorOf(a) != Some(Browser(w))
  {
    var w := s.readers[c].pc.w;
    StuckNeverActs(s, Runtime(c), a);
    ReaderFacts(s, c);
    if !FromElsewhere(s, a, w) {
      var d := ActorOf(a).value.c;
      WhoIsAt(s, d, w);
      ReaderFacts(s, d);
    }
    hide Inv, Stuck, FromElsewhere, IsAt;
    GoneNeverActs(s, w, a);
  }

  lemma GoneNeverActs(s: State, w: WaiterId, a: Action)
    requires Can(s, a) && w < |s.table| && s.table[w].consumer.Gone?
    ensures ActorOf(a) != Some(Browser(w))
  {
  }

  lemma AbandonedStays(s: State, c: Conn, a: Action)
    requires Inv(s) && Abandoned(s, c) && Can(s, a)
    ensures Abandoned(Do(s, a), c)
  {
    var w := s.readers[c].pc.w;
    NotAtAbandoned(s, c, a);
    OtherReadersStay(s, a, c);
    ReadingStays(s, a, w);
    QueueStays(s, a, w);
    FateStays(s, a, w);
    hide Can, Do, Inv;
  }

  // ----- behind a jam -----

  lemma JamMembers(s: State, x: Actor)
    requires Inv(s) && Jammed(s)
    ensures BehindJam(s, Runtime(s.lock.value))
  {
    ReaderFacts(s, s.lock.value);
  }

  lemma BehindJamStays(s: State, x: Actor, a: Action)
    requires Inv(s) && BehindJam(s, x) && Can(s, a)
    ensures BehindJam(Do(s, a), x)
  {
    JamSurvives(s, a);
    StuckNeverActs(s, x, a);
    JamMembers(s, x);
    StuckNeverActs(s, Runtime(s.lock.value), a);
    if x.Browser? {
      ReadingStays(s, a, x.w);
      hide Can, Do, Inv, Jammed;
    } else {
      OtherReadersStay(s, a, x.c);
      var pc := s.readers[x.c].pc;
      if pc.Locking? || pc.Selecting? {
        ReaderFacts(s, x.c);
        BusyElsewhere(s, a, pc.w);
        QueueStays(s, a, pc.w);
        if pc.Selecting? && s.table[pc.w].consumer.Leaving? { LeftWaiterStays(s, x.c, a); }
      }
      hide Can, Do, Inv, Jammed;
    }
  }

  lemma LeftWaiterStays(s: State, c: Conn, a: Action)
    requires Inv(s) && BehindJam(s, Runtime(c)) && Can(s, a) && s.readers[c].pc.Selecting?
    requires FromElsewhere(s, a, s.readers[c].pc.w)
    ensures var w := s.readers[c].pc.w;
      var t := Do(s, a);
      && w < |t.table| && t.table[w].done == s.table[w].done && t.table[w].consumer == s.table[w].consumer
      && t.table[w].taken == s.table[w].taken && t.table[w].fate == s.table[w].fate
  {
    var w := s.readers[c].pc.w;
    var x := Browser(w);
    assert BehindJam(s, x);
    StuckNeverActs(s, x, a);
    ReadingStays(s, a, w);
    if ActorOf(a).Some? && ClosesNext(s, ActorOf(a).value, w) { ClosedIsRemoved(s, ActorOf(a).value, w); }
    DoneStays(s, a, w);
    NoSweepInJam(s, a);
    FateStaysLocked(s, a, w);
    hide Can, Do, Inv, Jammed;
  }

  lemma NoSweepInJam(s: State, a: Action)
    requires Inv(s) && Jammed(s) && Can(s, a)
    ensures !a.SweepOne?
  {
    if a.SweepOne? { ReaderFacts(s, a.c); }
  }

  lemma {:induction false} StuckIsForever(s: State, x: Actor, run: seq<Action>)
    requires Inv(s) && Stuck(s, x) && Exec(s, run).Some?
    ensures Stuck(Exec(s, run).value, x)
    decreases |run|
  {
    hide Inv, BehindJam, Abandoned;
    if run != [] {
      if BehindJam(s, x) { BehindJamStays(s, x, run[0]); } else { AbandonedStays(s, x.c, run[0]); }
      StepKeeps(s, run[0]);
      StuckIsForever(Do(s, run[0]), x, run[1..]);
    }
  }

  // ----- a run that abandons a reader -----

  // From the full queue of ProtocolJam's run: one more event is on its way, the same id is
  // used again, and the first browser's write fails.
  function Leaving(k: nat): State {
    var s := Underway(17, 1, Writing(DELTA), 3);
    var x := NewWaiter(KEY, 0, 0).(sent := Deltas(17), taken := 1, consumer := Writing(DELTA),
                                   holder := Some(0), fate := Overwritten(1));
    var y := NewWaiter(KEY, 0, 18);
    if k == 0 then s.(waiters := map[KEY := 1], table := [x, y])
    else if k == 1 then s.(waiters := map[KEY := 1], table := [x.(consumer := Consumer.Leaving, quit := true), y])
    else
      var t := s.(waiters := map[]);
      if k == 2 then
        t.(table := [x.(consumer := Consumer.Cancelling(Some(1)), quit := true), y.(fate := Removed(0))])
      else t.(table := [x.(consumer := Gone, quit := true), y.(fate := Removed(0), done := true)])
  }

  lemma ReusesTheId()
    ensures Step(Underway(17, 1, Writing(DELTA), 3), SendTask(KEY), Leaving(0))
  {
    assert |Underway(17, 1, Writing(DELTA), 3).log| == 18;
  }

  lemma GivesUp()
    ensures Step(Leaving(0), Respond(0, false), Leaving(1))
  {
  }

  lemma TakesOutTheOther()
    ensures Step(Leaving(1), Leave(0), Leaving(2))
  {
    assert map[KEY := 1] - {KEY} == map[];
    assert TakenOut(Leaving(1), 0) == Some(1);
    hide Deltas, Underway;
  }

  lemma ClosesTheOther()
    ensures Step(Leaving(2), LeaveClose(0), Leaving(3))
  {
    hide Deltas, Underway;
  }

  lemma LeavesItsReader()
    ensures Abandoned(Leaving(3), 0)
  {
  }

  // The queue is full, and the next event is waiting for room.
  lemma WaitsForRoom()
    ensures Step(Underway(17, 1, Writing(DELTA), 2), LockWaiter(0), Underway(17, 1, Writing(DELTA), 3))
  {
  }

  // From the empty gateway, without any reconnection: a reader that will never read again.
  lemma AbandonedIsReachable()
    ensures exists s :: Reachable(s) && Abandoned(s, 0) && s.lock.None?
  {
    hide Can, Do, Exec, Streaming, Underway, Leaving, Abandoned;
    var run := FillsTheQueue();
    FirstHalf(17, 1, Writing(DELTA));
    UnderwayStarts(17, 1, Writing(DELTA));
    ExecOne(INITIAL, run, ReadEvent(0, DELTA), Underway(17, 1, Writing(DELTA), 1));
    var run1 := run + [ReadEvent(0, DELTA)];
    ExecOne(INITIAL, run1, Snapshot(0), Underway(17, 1, Writing(DELTA), 2));
    var run2 := run1 + [Snapshot(0)];
    WaitsForRoom();
    ExecOne(INITIAL, run2, LockWaiter(0), Underway(17, 1, Writing(DELTA), 3));
    var run3 := run2 + [LockWaiter(0)];
    var last := [SendTask(KEY), Respond(0, false), Leave(0), LeaveClose(0)];
    ReusesTheId();
    GivesUp();
    TakesOutTheOther();
    ClosesTheOther();
    ExecFour(Underway(17, 1, Writing(DELTA), 3), last, Leaving(0), Leaving(1), Leaving(2), Leaving(3));
    ExecAppend(INITIAL, run3, last);
    LeavesItsReader();
    LockIsFree();
    assert Exec(INITIAL, run3 + last) == Some(Leaving(3));
  }

  lemma LockIsFree()
    ensures Leaving(3).lock.None?
  {
  }

  lemma UnderwayStarts(n: nat, taken: nat, consumer: Consumer)
    ensures Underway(n, taken, consumer, 0) == Streaming(n, taken, consumer)
  {
  }
}

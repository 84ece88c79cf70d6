/** A run that jams the gateway: the browser's write fails while its queue is full. */
module ProtocolJam {
  import opened Wrappers
  import opened Envelopes
  import opened Protocol
  import opened ProtocolInvariant
  import opened ProtocolDelivery
  import opened ProtocolProgress

  const KEY := Key("agent", "message")
  const DELTA := Envelope(Delta, "agent", "", "message", 0, NO_PAYLOAD)

  function Deltas(n: nat): seq<Item> {
    seq(n, i => Item(DELTA, false))
  }

  // Connection 0 has delivered n deltas; the browser has taken `taken` of them.
  function Streaming(n: nat, taken: nat, consumer: Consumer): State {
    var x := NewWaiter(KEY, 0, 0).(sent := Deltas(n), taken := taken, consumer := consumer);
    State(map["agent" := 0], map[KEY := 0], [x], None, map[0 := Reader("agent", Reading)],
          seq(n, i => Dispatched(0, DELTA)))
  }

  // One event on its way from connection 0 to the queue.
  const ONE_EVENT: seq<Action> := [ReadEvent(0, DELTA), Snapshot(0), LockWaiter(0), Push(0)]

  // Where connection 0 and its event are after k of the four steps.
  function Underway(n: nat, taken: nat, consumer: Consumer, k: nat): State {
    var s := Streaming(n, taken, consumer);
    if k == 0 then s
    else if k == 1 then s.(readers := map[0 := Reader("agent", Dispatching(DELTA))])
    else
      var t := Streaming(n + 1, taken, consumer);
      if k == 2 then t.(table := s.table, readers := map[0 := Reader("agent", Locking(0, DELTA))])
      else if k == 3 then t.(table := [s.table[0].(holder := Some(0))],
                             readers := map[0 := Reader("agent", Selecting(0, DELTA))])
      else t
  }

  lemma FirstHalf(n: nat, taken: nat, consumer: Consumer)
    ensures Step(Underway(n, taken, consumer, 0), ReadEvent(0, DELTA), Underway(n, taken, consumer, 1))
    ensures Step(Underway(n, taken, consumer, 1), Snapshot(0), Underway(n, taken, consumer, 2))
  {
    var s, t := Streaming(n, taken, consumer), Streaming(n + 1, taken, consumer);
    assert s.log + [Dispatched(0, DELTA)] == t.log;
  }

  lemma SecondHalf(n: nat, taken: nat, consumer: Consumer)
    requires n < taken + QUEUE_CAPACITY
    ensures Step(Underway(n, taken, consumer, 2), LockWaiter(0), Underway(n, taken, consumer, 3))
    ensures Step(Underway(n, taken, consumer, 3), Push(0), Underway(n, taken, consumer, 4))
  {
    assert Deltas(n) + [Item(DELTA, false)] == Deltas(n + 1);
  }

  lemma OneMore(n: nat, taken: nat, consumer: Consumer)
    requires n < taken + QUEUE_CAPACITY
    ensures Exec(Streaming(n, taken, consumer), ONE_EVENT) == Some(Streaming(n + 1, taken, consumer))
  {
    FirstHalf(n, taken, consumer);
    SecondHalf(n, taken, consumer);
    hide Can, Do;
    ExecFour(Underway(n, taken, consumer, 0), ONE_EVENT,
             Underway(n, taken, consumer, 1), Underway(n, taken, consumer, 2),
             Underway(n, taken, consumer, 3), Underway(n, taken, consumer, 4));
  }

  lemma {:induction false} ManyMore(n: nat, k: nat, taken: nat, consumer: Consumer) returns (run: seq<Action>)
    requires n + k <= taken + QUEUE_CAPACITY
    ensures Exec(Streaming(n, taken, consumer), run) == Some(Streaming(n + k, taken, consumer))
    decreases k
  {
    if k == 0 {
      run := [];
    } else {
      OneMore(n, taken, consumer);
      var rest := ManyMore(n + 1, k - 1, taken, consumer);
      run := ONE_EVENT + rest;
      ExecAppend(Streaming(n, taken, consumer), ONE_EVENT, rest);
    }
  }

  // The first steps: the connection registers, a browser sends its task.
  function Opening(k: nat): State {
    var s := Streaming(0, 0, Sending);
    if k == 0 then DoConnect(INITIAL, 0, "agent")
    else if k == 1 then s.(waiters := map[], table := [])
    else s
  }

  lemma Connects()
    ensures Step(INITIAL, Connect(0, "agent"), Opening(0))
    ensures Step(Opening(0), Register(0), Opening(1))
  {
    assert Streaming(0, 0, Sending).log == [];
  }

  lemma Sends()
    ensures Step(Opening(1), SendTask(KEY), Opening(2))
    ensures Step(Opening(2), WriteTask(0, true), Streaming(0, 0, Receiving))
  {
    assert Deltas(0) == [];
    assert Opening(2).table == [NewWaiter(KEY, 0, 0)];
    assert DoWriteTask(Opening(2), 0, true).table == Streaming(0, 0, Receiving).table;
  }

  lemma TaskIsRunning() returns (run: seq<Action>)
    ensures Exec(INITIAL, run) == Some(Streaming(0, 0, Receiving))
  {
    run := [Connect(0, "agent"), Register(0), SendTask(KEY), WriteTask(0, true)];
    Connects();
    Sends();
    hide Can, Do;
    ExecFour(INITIAL, run, Opening(0), Opening(1), Opening(2), Streaming(0, 0, Receiving));
  }

  // The browser has taken one event, its queue has filled up again, its write fails; a new
  // connection for the agent registers and starts to sweep.
  function Sweeper(k: nat): State {
    var s := Streaming(17, 1, Writing(DELTA));
    var x := s.table[0].(consumer := Leaving, quit := true);
    var former := Reader("agent", Reading);
    if k == 0 then s.(table := [x])
    else if k == 1 then s.(table := [x], readers := map[0 := former, 1 := Reader("agent", Connected)])
    else
      var t := s.(runtimes := map["agent" := 1], lock := Some(1));
      if k == 2 then t.(table := [x], readers := map[0 := former, 1 := Reader("agent", Sweeping(true))])
      else if k == 3 then
        t.(waiters := map[], table := [x.(fate := Swept)],
           readers := map[0 := former, 1 := Reader("agent", FailLocking(0, true))])
      else
        t.(waiters := map[], table := [x.(fate := Swept, holder := Some(1))],
           readers := map[0 := former, 1 := Reader("agent", FailSelecting(0, true))])
  }

  lemma BrowserGivesUp()
    ensures Step(Streaming(17, 1, Writing(DELTA)), Respond(0, false), Sweeper(0))
    ensures Step(Sweeper(0), Connect(1, "agent"), Sweeper(1))
  {
  }

  lemma ReplacementSweeps()
    ensures Step(Sweeper(1), Register(1), Sweeper(2))
    ensures Step(Sweeper(2), SweepOne(1, KEY), Sweeper(3))
  {
    assert map[KEY := 0] - {KEY} == map[];
  }

  lemma ReplacementIsStuck()
    ensures Step(Sweeper(3), LockWaiter(1), Sweeper(4))
    ensures Jammed(Sweeper(4))
  {
  }

  lemma TakesOne()
    ensures Step(Streaming(1, 0, Receiving), Receive(0), Streaming(1, 1, Writing(DELTA)))
  {
    assert DoReceive(Streaming(1, 0, Receiving), 0).table == Streaming(1, 1, Writing(DELTA)).table;
  }

  // A browser has taken one event and is writing its response; its queue is full again.
  lemma FillsTheQueue() returns (run: seq<Action>)
    ensures Exec(INITIAL, run) == Some(Streaming(17, 1, Writing(DELTA)))
  {
    hide Can, Do, Exec, Streaming;
    var run0 := TaskIsRunning();
    OneMore(0, 0, Receiving);
    var run1 := run0 + ONE_EVENT;
    ExecAppend(INITIAL, run0, ONE_EVENT);
    TakesOne();
    var run2 := run1 + [Receive(0)];
    ExecOne(INITIAL, run1, Receive(0), Streaming(1, 1, Writing(DELTA)));
    var fill := ManyMore(1, 16, 1, Writing(DELTA));
    run := run2 + fill;
    ExecAppend(INITIAL, run2, fill);
  }

  // From the empty gateway, a browser that gives up on a full queue, a replacement at that
  // moment, and the registry is locked for good: JamIsForever.
  lemma JamIsReachable()
    ensures exists s :: Reachable(s) && Jammed(s)
  {
    hide Can, Do, Exec, Streaming, Sweeper, Jammed;
    var run3 := FillsTheQueue();
    BrowserGivesUp();
    ReplacementSweeps();
    ReplacementIsStuck();
    ExecOne(INITIAL, run3, Respond(0, false), Sweeper(0));
    var run4 := run3 + [Respond(0, false)];
    var last := [Connect(1, "agent"), Register(1), SweepOne(1, KEY), LockWaiter(1)];
    ExecFour(Sweeper(0), last, Sweeper(1), Sweeper(2), Sweeper(3), Sweeper(4));
    ExecAppend(INITIAL, run4, last);
    assert Exec(INITIAL, run4 + last) == Some(Sweeper(4));
  }

  lemma ExecOne(s: State, run: seq<Action>, a: Action, t: State)
    requires Exec(s, run).Some? && Step(Exec(s, run).value, a, t)
    ensures Exec(s, run + [a]) == Some(t)
  {
    ExecAppend(s, run, [a]);
    assert Exec(t, [a][1..]) == Some(t);
  }
}

/**
 What can come of an id for which a connection still owes something: a run of the composed system in
 which a browser is shown the answer to another browser's task, and its own is never looked at.
 */
module ForeignAnswers {
  import opened Wrappers
  import opened Envelopes
  import opened Protocol
  import opened TaskLoop
  import opened ChatSystem
  import opened ChatDelivery
  import Claw

  const KEY := Key("agent", "message")
  const FIRST := Envelope(TaskRun, "agent", "", "message", 0, Payload(Some("first"), None))
  const SECOND := Envelope(TaskRun, "agent", "", "message", 0, Payload(Some("second"), None))
  const FAILURE := StartFails("cannot start")
  const ANSWER := Envelope(Error, "agent", "", "message", 1, Payload(Some("cannot start"), None))

  // The first task is answered by the runtime; before the answer is read, a second browser
  // sends a task with the same id.
  function MoveAt(k: nat): Move {
    if k == 0 then Gateway(Connect(0, "agent"))
    else if k == 1 then Gateway(Register(0))
    else if k == 2 then Send(FIRST)
    else if k == 3 then Write(0, true, true)
    else if k == 4 then Take(0, FAILURE)
    else if k == 5 then Emit(0)
    else if k == 6 then Send(SECOND)
    else if k == 7 then Write(1, true, true)
    else if k == 8 then ChatSystem.Read(0)
    else if k == 9 then Gateway(Snapshot(0))
    else if k == 10 then Gateway(LockWaiter(0))
    else if k == 11 then Gateway(Push(0))
    else if k == 12 then Gateway(Receive(1))
    else Gateway(Respond(1, true))
  }

  function FirstTable(k: nat): seq<Waiter> {
    var x := NewWaiter(KEY, 0, 0);
    if k <= 2 then []
    else if k == 3 then [x]
    else [x.(consumer := Receiving)]
  }

  function SecondWaiter(k: nat): Waiter {
    var x := NewWaiter(KEY, 0, 0);
    if k <= 7 then x
    else
      var y := x.(consumer := Receiving);
      if k <= 10 then y
      else if k == 11 then y.(holder := Some(0))
      else
        var z := y.(sent := [Item(ANSWER, false)]);
        if k == 12 then z
        else if k == 13 then z.(taken := 1, consumer := Writing(ANSWER))
        else z.(taken := 1, written := [ANSWER], consumer := Leaving)
  }

  function TableAt(k: nat): seq<Waiter> {
    if k <= 6 then FirstTable(k)
    else [NewWaiter(KEY, 0, 0).(consumer := Receiving, fate := Overwritten(1)), SecondWaiter(k)]
  }

  function PcAt(k: nat): Pc {
    if k <= 1 then Connected
    else if k <= 8 then Reading
    else if k == 9 then Dispatching(ANSWER)
    else if k == 10 then Locking(1, ANSWER)
    else if k == 11 then Selecting(1, ANSWER)
    else Retiring(1)
  }

  function GatewayAt(k: nat): State {
    State(if k <= 1 then map[] else map["agent" := 0],
          if k <= 2 then map[] else if k <= 6 then map[KEY := 0] else map[KEY := 1],
          TableAt(k), None,
          if k == 0 then map[] else map[0 := Reader("agent", PcAt(k))],
          if k <= 9 then [] else [Dispatched(0, ANSWER)])
  }

  function WireAt(k: nat): Wire {
    Wire(if k <= 7 then [Post(0, FIRST)] else [Post(0, FIRST), Post(1, SECOND)],
         if k <= 4 then [] else [FAILURE],
         if k <= 5 then [] else [ANSWER],
         if k <= 8 then 0 else 1)
  }

  function SystemAt(k: nat): System {
    System(GatewayAt(k),
           if k <= 2 then [] else if k <= 6 then [FIRST] else [FIRST, SECOND],
           if k <= 3 then map[] else map[0 := WireAt(k)])
  }

  ghost predicate Leads(k: nat) {
    CanMove(SystemAt(k), MoveAt(k)) && DoMove(SystemAt(k), MoveAt(k)) == SystemAt(k + 1)
  }

  lemma Connects()
    ensures Leads(0)
  {
  }

  lemma Registers()
    ensures Leads(1)
  {
  }

  lemma FirstIsSent()
    ensures Leads(2)
  {
  }

  lemma FirstIsWritten()
    ensures Leads(3)
  {
    assert [] + [Post(0, FIRST)] == [Post(0, FIRST)];
  }

  lemma FirstIsTakenUp()
    ensures Leads(4)
  {
    assert ScriptOf(WireAt(4)) == [] && [] + [FAILURE] == [FAILURE];
    hide TaskEnvelopes;
  }

  lemma AnswerScript()
    ensures Script([Post(0, FIRST)], [FAILURE]) == [ANSWER]
  {
    assert [FAILURE][..0] == [];
    assert Script([Post(0, FIRST)], []) == [];
    assert [] + [ANSWER] == [ANSWER];
  }

  lemma FirstIsAnswered()
    ensures Leads(5)
  {
    AnswerScript();
    hide TaskEnvelopes, Script;
    assert ScriptOf(WireAt(5)) == [ANSWER] && [] + [ANSWER] == [ANSWER];
  }

  lemma SecondIsSent()
    ensures Leads(6)
  {
    assert GatewayAfter(SystemAt(6), Send(SECOND)).table == TableAt(7);
    assert [FIRST] + [SECOND] == [FIRST, SECOND];
  }

  lemma SecondIsWritten()
    ensures Leads(7)
  {
    assert GatewayAfter(SystemAt(7), Write(1, true, true)).table == TableAt(8);
    assert [Post(0, FIRST)] + [Post(1, SECOND)] == [Post(0, FIRST), Post(1, SECOND)];
  }

  lemma AnswerArrives()
    ensures Can(GatewayAt(8), ReadEvent(0, ANSWER)) && Do(GatewayAt(8), ReadEvent(0, ANSWER)) == GatewayAt(9)
  {
  }

  lemma AnswerIsRead()
    ensures Leads(8)
  {
    AnswerArrives();
    hide Can, Do, GatewayAt;
  }

  lemma AnswerIsDispatched()
    ensures Leads(9)
  {
    assert EventKey(ANSWER) == KEY;
  }

  lemma WaiterIsLocked()
    ensures Leads(10)
  {
    assert GatewayAfter(SystemAt(10), Gateway(LockWaiter(0))).table == TableAt(11);
  }

  lemma AnswerIsDelivered()
    ensures Leads(11)
  {
    assert SecondWaiter(11).sent + [Item(ANSWER, false)] == [Item(ANSWER, false)];
    assert GatewayAfter(SystemAt(11), Gateway(Push(0))).table == TableAt(12);
  }

  lemma AnswerIsTaken()
    ensures Leads(12)
  {
    assert GatewayAfter(SystemAt(12), Gateway(Receive(1))).table == TableAt(13);
  }

  lemma AnswerIsShown()
    ensures Leads(13)
  {
    assert SecondWaiter(13).written + [ANSWER] == [ANSWER];
    assert GatewayAfter(SystemAt(13), Gateway(Respond(1, true))).table == TableAt(14);
  }

  lemma {:induction false} MovesFrom(k: nat, n: nat) returns (run: seq<Move>)
    requires k <= n && forall i: nat :: k <= i < n ==> Leads(i)
    ensures ExecMoves(SystemAt(k), run) == Some(SystemAt(n))
    decreases n - k
  {
    run := [];
    if k < n {
      var rest := MovesFrom(k + 1, n);
      run := [MoveAt(k)] + rest;
      assert run[1..] == rest && Leads(k);
    }
    hide CanMove, DoMove, SystemAt, MoveAt;
  }

  // The browser was shown the answer to the first task; its own was not taken up.
  ghost predicate ShownForeign(s: System, w: WaiterId) {
    && w < |s.gateway.table| == |s.tasks| && s.tasks[w] == SECOND
    && s.gateway.table[w].written == [ANSWER] == TaskEnvelopes(FIRST, FAILURE)
    && forall outcome :: !Ran(s, w, outcome)
  }

  lemma ForeignAnswerIsShown()
    ensures exists s, w :: Occurs(s) && ShownForeign(s, w)
  {
    hide Leads, Occurs, ShownForeign, SystemAt, ExecMoves;
    AllLead();
    var run := MovesFrom(0, 14);
    StartsThere();
    EndsThere();
    OccursBy(run, SystemAt(14));
  }

  lemma OccursBy(run: seq<Move>, s: System)
    requires ExecMoves(START, run) == Some(s)
    ensures Occurs(s)
  {
  }

  lemma AllLead()
    ensures forall i: nat :: 0 <= i < 14 ==> Leads(i)
  {
    hide Leads;
    Connects();
    Registers();
    FirstIsSent();
    FirstIsWritten();
    FirstIsTakenUp();
    FirstIsAnswered();
    SecondIsSent();
    SecondIsWritten();
    AnswerIsRead();
    AnswerIsDispatched();
    WaiterIsLocked();
    AnswerIsDelivered();
    AnswerIsTaken();
    AnswerIsShown();
  }

  lemma StartsThere()
    ensures SystemAt(0) == START
  {
  }

  lemma EndsThere()
    ensures ShownForeign(SystemAt(14), 1)
  {
  }
}

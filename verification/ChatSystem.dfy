/**
 The gateway and the runtimes at the other ends of its connections, as one step system. A
 connection keeps the order of what is written to it, both ways. The program at its other end
 (cmd/shclop-runtime/main.go:53-97) takes up the tasks one after the other and writes for each what
 the task loop says, before it looks at the next.
 */
module ChatSystem {
  import opened Wrappers
  import opened Envelopes
  import opened Protocol
  import opened TaskLoop

  // A task written to a connection, and the waiter it was written for.
  datatype Post = Post(w: WaiterId, task: Envelope)

  // Both directions of a connection are kept whole. The outcome of a task is what its adapter
  // comes to do; it is told when the task is taken up.
  datatype Wire = Wire(
    inbox: seq<Post>,
    outcomes: seq<Outcome>,    // of the tasks taken up so far
    out: seq<Envelope>,        // written by the runtime
    read: nat)                 // how many of these the gateway has read

  const NEW_WIRE := Wire([], [], [], 0)

  // The task of each waiter stands at its index in `tasks`.
  datatype System = System(gateway: State, tasks: seq<Envelope>, wires: map<Conn, Wire>)

  const START := System(INITIAL, [], map[])

  datatype Move =
    | Gateway(a: Action)               // any other step of the gateway
    | Send(task: Envelope)             // server.go:1744-1757
    | Write(w: WaiterId, ok: bool, arrives: bool)  // a failed write may still arrive whole
    | Take(c: Conn, outcome: Outcome)  // main.go:53-64
    | Emit(c: Conn)                    // main.go:67, 78 and 92
    | Read(c: Conn)                    // server.go:1810-1817

  function WireOf(s: System, c: Conn): Wire {
    if c in s.wires then s.wires[c] else NEW_WIRE
  }

  // All that the runtime is to write for the tasks taken up.
  function Script(inbox: seq<Post>, outcomes: seq<Outcome>): seq<Envelope> {
    var n := |outcomes|;
    if n == 0 || |inbox| < n then []
    else Script(inbox, outcomes[..n - 1]) + TaskEnvelopes(inbox[n - 1].task, outcomes[n - 1])
  }

  function ScriptOf(wire: Wire): seq<Envelope> {
    Script(wire.inbox, wire.outcomes)
  }

  // A runtime that fails to write exits, which is to make no further move.
  predicate CanMove(s: System, m: Move) {
    match m
    case Gateway(a) => Can(s.gateway, a) && !a.SendTask? && !a.WriteTask? && !a.ReadEvent?
    case Send(task) => Can(s.gateway, SendTask(EventKey(task))) && task.typ.TaskRun?
    case Write(w, ok, arrives) => Can(s.gateway, WriteTask(w, ok)) && w < |s.tasks| && (ok ==> arrives)
    case Take(c, _) =>
      var wire := WireOf(s, c);
      |wire.outcomes| < |wire.inbox| && wire.out == ScriptOf(wire)
    case Emit(c) => |WireOf(s, c).out| < |ScriptOf(WireOf(s, c))|
    case Read(c) =>
      var wire := WireOf(s, c);
      wire.read < |wire.out| && Can(s.gateway, ReadEvent(c, wire.out[wire.read]))
  }

  // The gateway's part in a move, if it has one.
  function PartOf(s: System, m: Move): (a: Option<Action>)
    requires CanMove(s, m)
    ensures a.Some? ==> Can(s.gateway, a.value)
  {
    match m
    case Gateway(a) => Some(a)
    case Send(task) => Some(SendTask(EventKey(task)))
    case Write(w, ok, _) => Some(WriteTask(w, ok))
    case Take(_, _) => None
    case Emit(_) => None
    case Read(c) => Some(ReadEvent(c, WireOf(s, c).out[WireOf(s, c).read]))
  }

  function GatewayAfter(s: System, m: Move): State
    requires CanMove(s, m)
  {
    if PartOf(s, m).Some? then Do(s.gateway, PartOf(s, m).value) else s.gateway
  }

  // Without a runtime there is no waiter, and so no task.
  function TasksAfter(s: System, m: Move): seq<Envelope> {
    if m.Send? && m.task.agentId in s.gateway.runtimes then s.tasks + [m.task] else s.tasks
  }

  function WiresAfter(s: System, m: Move): map<Conn, Wire>
    requires CanMove(s, m)
  {
    match m
    case Gateway(_) => s.wires
    case Send(_) => s.wires
    case Write(w, _, arrives) =>
      if !arrives then s.wires
      else
        var c := s.gateway.table[w].conn;
        var wire := WireOf(s, c);
        s.wires[c := wire.(inbox := wire.inbox + [Post(w, s.tasks[w])])]
    case Take(c, outcome) =>
      var wire := WireOf(s, c);
      s.wires[c := wire.(outcomes := wire.outcomes + [outcome])]
    case Emit(c) =>
      var wire := WireOf(s, c);
      s.wires[c := wire.(out := wire.out + [ScriptOf(wire)[|wire.out|]])]
    case Read(c) =>
      var wire := WireOf(s, c);
      s.wires[c := wire.(read := wire.read + 1)]
  }

  function DoMove(s: System, m: Move): System
    requires CanMove(s, m)
  {
    System(GatewayAfter(s, m), TasksAfter(s, m), WiresAfter(s, m))
  }

  function ExecMoves(s: System, run: seq<Move>): Option<System>
    decreases |run|
  {
    if run == [] then Some(s)
    else if CanMove(s, run[0]) then ExecMoves(DoMove(s, run[0]), run[1..])
    else None
  }

  ghost predicate Occurs(s: System) {
    exists run :: ExecMoves(START, run) == Some(s)
  }

  // ----- what of a stream is for one key -----

  function OfKey(events: seq<Envelope>, key: Key): seq<Envelope> {
    if events == [] then []
    else
      var last := events[|events| - 1];
      OfKey(events[..|events| - 1], key) + (if EventKey(last) == key then [last] else [])
  }

  lemma {:induction false} OfKeyConcat(a: seq<Envelope>, b: seq<Envelope>, key: Key)
    ensures OfKey(a + b, key) == OfKey(a, key) + OfKey(b, key)
    decreases |b|
  {
    if b == [] {
      assert a + b == a;
    } else {
      OfKeyConcat(a, b[..|b| - 1], key);
      assert (a + b)[..|a + b| - 1] == a + b[..|b| - 1];
    }
  }

  lemma OfKeyPrefix(a: seq<Envelope>, b: seq<Envelope>, key: Key)
    requires a <= b
    ensures OfKey(a, key) <= OfKey(b, key)
  {
    OfKeyConcat(a, b[|a|..], key);
    assert a + b[|a|..] == b;
  }

  // A stream that is all for one key is taken whole, or not at all.
  lemma {:induction false} OfKeyUniform(events: seq<Envelope>, own: Key, key: Key)
    requires forall i :: 0 <= i < |events| ==> EventKey(events[i]) == own
    ensures OfKey(events, key) == if own == key then events else []
  {
    if events != [] {
      OfKeyUniform(events[..|events| - 1], own, key);
    }
  }

  lemma TaskOfKey(task: Envelope, outcome: Outcome, key: Key)
    ensures OfKey(TaskEnvelopes(task, outcome), key)
         == if EventKey(task) == key then TaskEnvelopes(task, outcome) else []
  {
    TaskEndsExactlyOnce(task, outcome);
    hide TaskEnvelopes;
    OfKeyUniform(TaskEnvelopes(task, outcome), EventKey(task), key);
  }

  // ----- what of a script is for one key -----

  // A further task in the inbox changes nothing of the tasks taken up.
  lemma {:induction false} ScriptOfLonger(inbox: seq<Post>, outcomes: seq<Outcome>, post: Post)
    requires |outcomes| <= |inbox|
    ensures Script(inbox + [post], outcomes) == Script(inbox, outcomes)
  {
    hide TaskEnvelopes;
    if outcomes != [] { ScriptOfLonger(inbox, outcomes[..|outcomes| - 1], post); }
  }

  lemma {:induction false} ScriptGrows(inbox: seq<Post>, outcomes: seq<Outcome>, n: nat)
    requires n <= |outcomes| <= |inbox|
    ensures Script(inbox, outcomes[..n]) <= Script(inbox, outcomes)
  {
    hide TaskEnvelopes;
    if n < |outcomes| {
      ScriptGrows(inbox, outcomes[..|outcomes| - 1], n);
      assert outcomes[..|outcomes| - 1][..n] == outcomes[..n];
    } else {
      assert outcomes[..n] == outcomes;
    }
  }

  // Where no task from the n-th on has the key, nothing of it is said from there on.
  lemma {:induction false} NothingOfKey(inbox: seq<Post>, outcomes: seq<Outcome>, key: Key, n: nat)
    requires n <= |outcomes| <= |inbox|
    requires forall i :: n <= i < |outcomes| ==> EventKey(inbox[i].task) != key
    ensures OfKey(Script(inbox, outcomes), key) == OfKey(Script(inbox, outcomes[..n]), key)
  {
    hide TaskEnvelopes;
    if n < |outcomes| {
      var last := |outcomes| - 1;
      NothingOfKey(inbox, outcomes[..last], key, n);
      assert outcomes[..last][..n] == outcomes[..n];
      LastOfKey(inbox, outcomes, key);
    } else {
      assert outcomes[..n] == outcomes;
    }
  }

  lemma LastOfKey(inbox: seq<Post>, outcomes: seq<Outcome>, key: Key)
    requires 0 < |outcomes| <= |inbox|
    ensures var last := |outcomes| - 1;
      OfKey(Script(inbox, outcomes), key)
      == OfKey(Script(inbox, outcomes[..last]), key)
         + (if EventKey(inbox[last].task) == key then TaskEnvelopes(inbox[last].task, outcomes[last]) else [])
  {
    var last := |outcomes| - 1;
    TaskOfKey(inbox[last].task, outcomes[last], key);
    OfKeyConcat(Script(inbox, outcomes[..last]), TaskEnvelopes(inbox[last].task, outcomes[last]), key);
    hide TaskEnvelopes, OfKey;
  }

  // Where one task alone has it, from the n-th on, its envelopes are all that is said.
  lemma {:induction false} OneOfKey(inbox: seq<Post>, outcomes: seq<Outcome>, key: Key, n: nat, k: nat)
    requires n <= k < |outcomes| <= |inbox| && EventKey(inbox[k].task) == key
    requires forall i :: n <= i < |outcomes| && i != k ==> EventKey(inbox[i].task) != key
    ensures OfKey(Script(inbox, outcomes), key)
         == OfKey(Script(inbox, outcomes[..n]), key) + TaskEnvelopes(inbox[k].task, outcomes[k])
  {
    hide TaskEnvelopes, OfKey, Script;
    var last := |outcomes| - 1;
    LastOfKey(inbox, outcomes, key);
    assert outcomes[..last][..n] == outcomes[..n];
    if k < last {
      OneOfKey(inbox, outcomes[..last], key, n, k);
    } else {
      NothingOfKey(inbox, outcomes[..last], key, n);
    }
  }
}

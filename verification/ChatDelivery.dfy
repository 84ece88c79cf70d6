/**
 From a task to the browser, over the composed system: what the gateway dispatches for a waiter is
 what the runtime's task loop wrote for the waiter's own task, so the browser sees that and nothing
 else.
 */
module ChatDelivery {
  import opened Wrappers
  import opened Envelopes
  import opened Protocol
  import opened ProtocolInvariant
  import opened ProtocolDelivery
  import opened ProtocolFrame
  import opened TaskLoop
  import opened EndToEnd
  import opened ChatSystem

  // ----- the invariant -----

  ghost predicate NamesOk(s: System) {
    && |s.tasks| == |s.gateway.table|
    && forall w :: 0 <= w < |s.tasks| ==> EventKey(s.tasks[w]) == s.gateway.table[w].key
  }

  // A task was written to the connection its waiter was made for, by a browser that sends no more.
  ghost predicate PostOk(s: System, c: Conn, post: Post) {
    && post.w < |s.gateway.table| == |s.tasks|
    && s.tasks[post.w] == post.task
    && s.gateway.table[post.w].conn == c
    && !s.gateway.table[post.w].consumer.Sending?
  }

  ghost predicate WireOk(s: System, c: Conn) {
    var wire := WireOf(s, c);
    && wire.read <= |wire.out|
    && |wire.outcomes| <= |wire.inbox|
    && wire.out <= ScriptOf(wire)
    && (forall i :: 0 <= i < |wire.inbox| ==> PostOk(s, c, wire.inbox[i]))
    && (forall i, j :: 0 <= i < j < |wire.inbox| ==> wire.inbox[i].w != wire.inbox[j].w)
  }

  // The event that was read but not dispatched yet.
  function InHand(g: State, c: Conn, key: Key): seq<Envelope> {
    if c in g.readers && g.readers[c].pc.Dispatching? && EventKey(g.readers[c].pc.event) == key
    then [g.readers[c].pc.event]
    else []
  }

  predicate MayCarry(g: State, c: Conn, key: Key) {
    c in g.readers ==> g.readers[c].agentId == key.agentId
  }

  function WasRead(s: System, c: Conn): seq<Envelope> {
    var wire := WireOf(s, c);
    if wire.read <= |wire.out| then wire.out[..wire.read] else []
  }

  // What was read of a key was dispatched, or is in hand.
  ghost predicate LogOk(s: System, c: Conn, key: Key) {
    MayCarry(s.gateway, c, key) ==>
      DispatchedFor(s.gateway.log, 0, c, key) + InHand(s.gateway, c, key)
      == OfKey(WasRead(s, c), key)
  }

  ghost predicate FirstOfIts(g: State, w: WaiterId)
    requires w < |g.table|
  {
    forall v :: 0 <= v < w ==> g.table[v].key != g.table[w].key || g.table[v].conn != g.table[w].conn
  }

  ghost predicate BornOk(g: State, w: WaiterId)
    requires w < |g.table|
  {
    var x := g.table[w];
    && x.born <= |g.log|
    && (FirstOfIts(g, w) ==> DispatchedFor(g.log[..x.born], 0, x.conn, x.key) == [])
  }

  ghost predicate SystemInv(s: System) {
    && Inv(s.gateway)
    && NamesOk(s)
    && (forall c {:trigger WireOk(s, c)} :: WireOk(s, c))
    && (forall c, key {:trigger LogOk(s, c, key)} :: LogOk(s, c, key))
    && (forall w {:trigger BornOk(s.gateway, w)} :: 0 <= w < |s.gateway.table| ==> BornOk(s.gateway, w))
  }

  // ----- what a step of the gateway leaves alone -----

  lemma OnlySnapshotLogs(g: State, a: Action)
    requires Can(g, a) && !a.Snapshot?
    ensures Do(g, a).log == g.log
  {
  }

  lemma ReaderStays(g: State, a: Action, c: Conn)
    requires Can(g, a) && c in g.readers
    ensures c in Do(g, a).readers && Do(g, a).readers[c].agentId == g.readers[c].agentId
    ensures !a.ReadEvent? && !a.Snapshot? ==>
      (Do(g, a).readers[c] == g.readers[c] || (!g.readers[c].pc.Dispatching? && !Do(g, a).readers[c].pc.Dispatching?))
  {
    if ActorOf(a) != Some(Runtime(c)) { OtherReadersStay(g, a, c); } else { OwnStep(g, a, c); }
    hide Can, Do;
  }

  lemma OwnStep(g: State, a: Action, c: Conn)
    requires Can(g, a) && c in g.readers && ActorOf(a) == Some(Runtime(c))
    ensures c in Do(g, a).readers && Do(g, a).readers[c].agentId == g.readers[c].agentId
    ensures !a.ReadEvent? && !a.Snapshot? ==> !g.readers[c].pc.Dispatching? && !Do(g, a).readers[c].pc.Dispatching?
  {
  }

  lemma NewReaderIsIdle(g: State, a: Action, c: Conn)
    requires Can(g, a) && c !in g.readers && c in Do(g, a).readers
    ensures Do(g, a).readers[c].pc.Connected?
  {
    if ActorOf(a) != Some(Runtime(c)) { SameReaders(g, a, c); }
  }

  lemma SameReaders(g: State, a: Action, c: Conn)
    requires Can(g, a) && c !in g.readers && ActorOf(a) != Some(Runtime(c))
    ensures c !in Do(g, a).readers
  {
  }

  lemma HandStays(g: State, a: Action, c: Conn, key: Key)
    requires Can(g, a) && !a.ReadEvent? && !a.Snapshot?
    ensures InHand(Do(g, a), c, key) == InHand(g, c, key)
  {
    hide Can, Do;
    if c in g.readers {
      ReaderStays(g, a, c);
    } else if c in Do(g, a).readers {
      NewReaderIsIdle(g, a, c);
    }
  }

  // A browser that has sent its task does not send again.
  lemma SentForGood(g: State, a: Action, w: WaiterId)
    requires Can(g, a) && w < |g.table| && !g.table[w].consumer.Sending?
    ensures w < |Do(g, a).table| && !Do(g, a).table[w].consumer.Sending?
  {
    if ActorOf(a) != Some(Browser(w)) {
      ReadingStays(g, a, w);
      hide Can, Do;
    } else {
      OwnStepSendsNoMore(g, a, w);
    }
  }

  lemma OwnStepSendsNoMore(g: State, a: Action, w: WaiterId)
    requires Can(g, a) && w < |g.table| && !g.table[w].consumer.Sending? && ActorOf(a) == Some(Browser(w))
    ensures w < |Do(g, a).table| && !Do(g, a).table[w].consumer.Sending?
  {
  }

  // ----- every move keeps the names -----

  lemma NamesKept(s: System, m: Move)
    requires CanMove(s, m) && NamesOk(s)
    ensures NamesOk(DoMove(s, m))
  {
    if m.Send? {
      SendKeepsNames(s, m.task);
    } else if PartOf(s, m).Some? {
      var a := PartOf(s, m).value;
      TableStays(s.gateway, a);
      forall w | 0 <= w < |s.tasks| ensures Do(s.gateway, a).table[w].key == s.gateway.table[w].key {
        NameStays(s.gateway, a, w);
      }
    }
    hide Can, Do, WiresAfter;
  }

  lemma SendKeepsNames(s: System, task: Envelope)
    requires CanMove(s, Send(task)) && NamesOk(s)
    ensures NamesOk(DoMove(s, Send(task)))
  {
  }

  // ----- every move keeps the wires -----

  lemma PostStays(s: System, m: Move, c: Conn, post: Post)
    requires CanMove(s, m) && NamesOk(s) && PostOk(s, c, post)
    ensures PostOk(DoMove(s, m), c, post)
  {
    NamesKept(s, m);
    if PartOf(s, m).Some? {
      NameStays(s.gateway, PartOf(s, m).value, post.w);
      SentForGood(s.gateway, PartOf(s, m).value, post.w);
    }
    hide Can, Do, WiresAfter, NamesOk, CanMove;
  }

  lemma WireKept(s: System, m: Move, c: Conn)
    requires CanMove(s, m) && NamesOk(s) && WireOk(s, c)
    ensures WireOk(DoMove(s, m), c)
  {
    var before, after := WireOf(s, c), WireOf(DoMove(s, m), c);
    forall i | 0 <= i < |before.inbox| ensures PostOk(DoMove(s, m), c, before.inbox[i]) {
      PostStays(s, m, c, before.inbox[i]);
    }
    if m.Write? && m.arrives && s.gateway.table[m.w].conn == c {
      PostIsNew(s, m, c);
      ScriptOfLonger(before.inbox, before.outcomes, Post(m.w, s.tasks[m.w]));
    } else {
      WireWritten(s, m, c);
    }
    hide PostOk, CanMove, DoMove, Script;
  }

  lemma PostIsNew(s: System, m: Move, c: Conn)
    requires CanMove(s, m) && NamesOk(s) && WireOk(s, c)
    requires m.Write? && m.arrives && s.gateway.table[m.w].conn == c
    ensures var wire := WireOf(s, c);
      && WireOf(DoMove(s, m), c) == wire.(inbox := wire.inbox + [Post(m.w, s.tasks[m.w])])
      && PostOk(DoMove(s, m), c, Post(m.w, s.tasks[m.w]))
      && forall i :: 0 <= i < |wire.inbox| ==> wire.inbox[i].w != m.w
  {
  }

  // Whatever else happens to a wire, its inbox stays and its output is part of its script.
  lemma WireWritten(s: System, m: Move, c: Conn)
    requires CanMove(s, m) && WireOk(s, c)
    requires !(m.Write? && m.arrives && s.gateway.table[m.w].conn == c)
    ensures var before, after := WireOf(s, c), WireOf(DoMove(s, m), c);
      && after.inbox == before.inbox
      && after.read <= |after.out| && |after.outcomes| <= |after.inbox| && after.out <= ScriptOf(after)
  {
    hide CanMove, DoMove, Script, PostOk;
    OtherMovesOnWire(s, m, c);
    if m.Take? && m.c == c { OneMoreOutcome(WireOf(s, c), m.outcome); }
  }

  lemma OtherMovesOnWire(s: System, m: Move, c: Conn)
    requires CanMove(s, m) && !(m.Write? && m.arrives && s.gateway.table[m.w].conn == c)
    ensures var wire, after := WireOf(s, c), WireOf(DoMove(s, m), c);
      match m
      case Take(d, outcome) =>
        d == c ==> after == wire.(outcomes := wire.outcomes + [outcome]) && |wire.outcomes| < |wire.inbox|
      case Emit(d) =>
        d == c ==> |wire.out| < |ScriptOf(wire)| && after == wire.(out := wire.out + [ScriptOf(wire)[|wire.out|]])
      case Read(d) => d == c ==> wire.read < |wire.out| && after == wire.(read := wire.read + 1)
      case _ => after == wire
    ensures (m.Take? || m.Emit? || m.Read?) && m.c != c ==> WireOf(DoMove(s, m), c) == WireOf(s, c)
  {
    hide Can, Do, Script;
  }

  lemma OneMoreOutcome(wire: Wire, outcome: Outcome)
    requires |wire.outcomes| < |wire.inbox|
    ensures ScriptOf(wire) <= ScriptOf(wire.(outcomes := wire.outcomes + [outcome]))
  {
    assert (wire.outcomes + [outcome])[..|wire.outcomes|] == wire.outcomes;
    hide TaskEnvelopes;
  }

  // ----- every move keeps what is known of the log -----

  lemma LogKept(s: System, m: Move, c: Conn, key: Key)
    requires CanMove(s, m) && WireOk(s, c) && LogOk(s, c, key)
    ensures LogOk(DoMove(s, m), c, key)
  {
    if m.Read? {
      ReadKeepsLog(s, m.c, c, key);
    } else if m.Gateway? && m.a.Snapshot? {
      SnapshotKeepsLog(s, m.a.c, c, key);
    } else {
      ReadPartStays(s, m, c);
      if PartOf(s, m).Some? { OthersKeepLog(s.gateway, PartOf(s, m).value, c, key); }
    }
    hide CanMove, WireOk, WiresAfter, OfKey, InHand, WasRead;
  }

  lemma OthersKeepLog(g: State, a: Action, c: Conn, key: Key)
    requires Can(g, a) && !a.ReadEvent? && !a.Snapshot?
    ensures Do(g, a).log == g.log && InHand(Do(g, a), c, key) == InHand(g, c, key)
    ensures MayCarry(Do(g, a), c, key) ==> MayCarry(g, c, key)
  {
    OnlySnapshotLogs(g, a);
    HandStays(g, a, c, key);
    if c in g.readers { ReaderStays(g, a, c); }
    hide Can, Do, InHand;
  }

  lemma ReadPartStays(s: System, m: Move, c: Conn)
    requires CanMove(s, m) && WireOk(s, c) && (m.Read? ==> m.c != c)
    ensures WasRead(DoMove(s, m), c) == WasRead(s, c)
  {
    hide Can, Do, Script, PostOk;
  }

  lemma ReadKeepsLog(s: System, d: Conn, c: Conn, key: Key)
    requires CanMove(s, Read(d)) && WireOk(s, c) && LogOk(s, c, key)
    ensures LogOk(DoMove(s, Read(d)), c, key)
  {
    hide OfKey, DispatchedFor, InHand, WasRead, WireOk, CanMove, Do;
    ReadByGateway(s, d, c, key);
    if d == c { OneMoreRead(s, c, key); } else { ReadPartStays(s, Read(d), c); }
  }

  lemma ReadByGateway(s: System, d: Conn, c: Conn, key: Key)
    requires CanMove(s, Read(d))
    ensures var g, h, e := s.gateway, DoMove(s, Read(d)).gateway, WireOf(s, d).out[WireOf(s, d).read];
      && h.log == g.log && MayCarry(h, c, key) == MayCarry(g, c, key)
      && (d != c ==> InHand(h, c, key) == InHand(g, c, key))
      && (d == c && MayCarry(g, c, key) ==>
            InHand(g, c, key) == [] && InHand(h, c, key) == if EventKey(e) == key then [e] else [])
  {
  }

  lemma OneMoreRead(s: System, c: Conn, key: Key)
    requires CanMove(s, Read(c))
    ensures var e := WireOf(s, c).out[WireOf(s, c).read];
      OfKey(WasRead(DoMove(s, Read(c)), c), key)
      == OfKey(WasRead(s, c), key) + (if EventKey(e) == key then [e] else [])
  {
    var part, e := WasRead(s, c), WireOf(s, c).out[WireOf(s, c).read];
    assert WasRead(DoMove(s, Read(c)), c) == part + [e];
    assert (part + [e])[..|part|] == part;
    hide Can, Do;
  }

  lemma SnapshotKeepsLog(s: System, d: Conn, c: Conn, key: Key)
    requires CanMove(s, Gateway(Snapshot(d))) && WireOk(s, c) && LogOk(s, c, key)
    ensures LogOk(DoMove(s, Gateway(Snapshot(d))), c, key)
  {
    hide OfKey, DispatchedFor, InHand, WasRead, WireOk, Do;
    SnapshotByGateway(s.gateway, d, c, key);
    ReadPartStays(s, Gateway(Snapshot(d)), c);
  }

  lemma SnapshotByGateway(g: State, d: Conn, c: Conn, key: Key)
    requires Can(g, Snapshot(d))
    ensures var h := Do(g, Snapshot(d));
      && MayCarry(h, c, key) == MayCarry(g, c, key)
      && DispatchedFor(h.log, 0, c, key) + InHand(h, c, key)
         == DispatchedFor(g.log, 0, c, key) + InHand(g, c, key)
  {
    DispatchedAppend(g.log, Dispatched(d, g.readers[d].pc.event), 0, c, key);
    HandIsEmptied(g, d, c, key);
    hide DispatchedFor, InHand;
  }

  lemma HandIsEmptied(g: State, d: Conn, c: Conn, key: Key)
    requires Can(g, Snapshot(d))
    ensures var e, h := g.readers[d].pc.event, Do(g, Snapshot(d));
      && h.log == g.log + [Dispatched(d, e)]
      && MayCarry(h, c, key) == MayCarry(g, c, key)
      && (c != d ==> InHand(h, c, key) == InHand(g, c, key))
      && (c == d ==> InHand(h, c, key) == [] && InHand(g, c, key) == if EventKey(e) == key then [e] else [])
  {
  }

  // ----- every move keeps what is known of the beginnings -----

  lemma BornKept(s: System, m: Move, w: WaiterId)
    requires CanMove(s, m) && w < |s.gateway.table| && BornOk(s.gateway, w)
    ensures w < |DoMove(s, m).gateway.table| && BornOk(DoMove(s, m).gateway, w)
  {
    if PartOf(s, m).Some? { BirthStays(s.gateway, PartOf(s, m).value, w); }
    hide CanMove, BornOk;
  }

  lemma BirthStays(g: State, a: Action, w: WaiterId)
    requires Can(g, a) && w < |g.table| && BornOk(g, w)
    ensures w < |Do(g, a).table| && BornOk(Do(g, a), w)
  {
    LogGrows(g, a);
    forall v | 0 <= v <= w ensures v < |Do(g, a).table| && SameName(g.table[v], Do(g, a).table[v]) {
      NameStays(g, a, v);
    }
    hide Can, Do, DispatchedFor;
    assert Do(g, a).log[..g.table[w].born] == g.log[..g.table[w].born];
  }

  lemma LogGrows(g: State, a: Action)
    requires Can(g, a)
    ensures g.log <= Do(g, a).log
  {
    if !a.Snapshot? { OnlySnapshotLogs(g, a); }
  }

  // Nothing of a key was dispatched before the first task that has it.
  lemma NewcomerIsOk(s: System, m: Move)
    requires CanMove(s, m) && SystemInv(s) && m.Send?
    ensures forall w :: |s.gateway.table| <= w < |DoMove(s, m).gateway.table| ==> BornOk(DoMove(s, m).gateway, w)
  {
    var g := s.gateway;
    var key := EventKey(m.task);
    if key.agentId in g.runtimes {
      var c := g.runtimes[key.agentId];
      assert MayCarry(g, c, key);
      assert g.log[..|g.log|] == g.log;
      NewcomerIs(g, key);
      if forall v :: 0 <= v < |g.table| ==> g.table[v].key != key || g.table[v].conn != c {
        NothingBefore(s, c, key);
      }
    }
    hide SystemInv, BornOk, DispatchedFor;
  }

  lemma NewcomerIs(g: State, key: Key)
    requires key.agentId in g.runtimes
    ensures |DoSendTask(g, key).table| == |g.table| + 1 && DoSendTask(g, key).log == g.log
    ensures DoSendTask(g, key).table[|g.table|] == NewWaiter(key, g.runtimes[key.agentId], |g.log|)
    ensures forall v :: 0 <= v < |g.table| ==> SameName(g.table[v], DoSendTask(g, key).table[v])
  {
  }

  lemma NothingBefore(s: System, c: Conn, key: Key)
    requires SystemInv(s) && MayCarry(s.gateway, c, key)
    requires forall v :: 0 <= v < |s.gateway.table| ==> s.gateway.table[v].key != key || s.gateway.table[v].conn != c
    ensures DispatchedFor(s.gateway.log, 0, c, key) == []
  {
    assert WireOk(s, c);
    assert LogOk(s, c, key);
    var wire := WireOf(s, c);
    forall i | 0 <= i < |wire.outcomes| ensures EventKey(wire.inbox[i].task) != key {
      assert PostOk(s, c, wire.inbox[i]);
    }
    NothingOfKey(wire.inbox, wire.outcomes, key, 0);
    assert wire.outcomes[..0] == [];
    OfKeyPrefix(WasRead(s, c), ScriptOf(wire), key);
  }

  // ----- the invariant holds in every run -----

  lemma MoveKeeps(s: System, m: Move)
    requires SystemInv(s) && CanMove(s, m)
    ensures SystemInv(DoMove(s, m))
  {
    var t := DoMove(s, m);
    if PartOf(s, m).Some? { StepKeeps(s.gateway, PartOf(s, m).value); }
    NamesKept(s, m);
    forall c ensures WireOk(t, c) { WireKept(s, m, c); }
    forall c, key ensures LogOk(t, c, key) { LogKept(s, m, c, key); }
    if m.Send? { NewcomerIsOk(s, m); } else { TableAfter(s, m); }
    forall w | 0 <= w < |t.gateway.table| ensures BornOk(t.gateway, w) {
      if w < |s.gateway.table| { BornKept(s, m, w); }
    }
  }

  lemma TableAfter(s: System, m: Move)
    requires CanMove(s, m) && !m.Send?
    ensures |DoMove(s, m).gateway.table| == |s.gateway.table|
  {
    if PartOf(s, m).Some? { TableStays(s.gateway, PartOf(s, m).value); }
  }

  lemma {:induction false} MovesKeep(s: System, run: seq<Move>)
    requires SystemInv(s) && ExecMoves(s, run).Some?
    ensures SystemInv(ExecMoves(s, run).value)
    decreases |run|
  {
    if run != [] {
      MoveKeeps(s, run[0]);
      MovesKeep(DoMove(s, run[0]), run[1..]);
    }
    hide SystemInv, CanMove, DoMove;
  }

  lemma OccursInv(s: System)
    requires Occurs(s)
    ensures SystemInv(s)
  {
    var run :| ExecMoves(START, run) == Some(s);
    StartIsOk();
    MovesKeep(START, run);
  }

  lemma StartIsOk()
    ensures SystemInv(START)
  {
  }

  // The gateway's part of a run is a run of the gateway.
  lemma {:induction false} GatewayRuns(s: System, run: seq<Move>, t: System) returns (part: seq<Action>)
    requires ExecMoves(s, run) == Some(t)
    ensures Exec(s.gateway, part) == Some(t.gateway)
    decreases |run|
  {
    part := [];
    if run != [] {
      var rest := GatewayRuns(DoMove(s, run[0]), run[1..], t);
      var a := PartOf(s, run[0]);
      part := if a.Some? then [a.value] + rest else rest;
      assert a.Some? ==> part[1..] == rest;
    }
  }

  lemma GatewayIsReachable(s: System)
    requires Occurs(s)
    ensures Reachable(s.gateway)
  {
    var run :| ExecMoves(START, run) == Some(s);
    var part := GatewayRuns(START, run, s);
  }

  // ----- what the browser is shown -----

  // No other waiter of its id was made for its connection.
  ghost predicate AloneOnItsConnection(s: System, w: WaiterId)
    requires w < |s.gateway.table|
  {
    forall v :: 0 <= v < |s.gateway.table| && v != w ==>
      s.gateway.table[v].key != s.gateway.table[w].key || s.gateway.table[v].conn != s.gateway.table[w].conn
  }

  // Its runtime took up the task of w, and this is what the adapter makes of it.
  ghost predicate Ran(s: System, w: WaiterId, outcome: Outcome)
    requires w < |s.gateway.table|
  {
    var wire := WireOf(s, s.gateway.table[w].conn);
    exists i :: 0 <= i < |wire.inbox| && i < |wire.outcomes| && wire.inbox[i].w == w && wire.outcomes[i] == outcome
  }

  lemma {:induction false} DispatchedSplits(log: seq<Dispatched>, born: nat, conn: Conn, key: Key)
    requires born <= |log|
    ensures DispatchedFor(log, 0, conn, key)
         == DispatchedFor(log[..born], 0, conn, key) + DispatchedFor(log, born, conn, key)
    decreases |log|
  {
    if |log| == born {
      assert log[..born] == log;
    } else {
      DispatchedSplits(log[..|log| - 1], born, conn, key);
      assert log[..|log| - 1][..born] == log[..born];
    }
  }

  // What was dispatched for such a waiter is a part of what its task's loop writes, in order
  // and from the start.
  lemma OfferedIsOfItsTask(s: System, w: WaiterId)
    requires Occurs(s) && w < |s.gateway.table| && AloneOnItsConnection(s, w)
    ensures w < |s.tasks|
    ensures Offered(s.gateway, w) == []
         || exists outcome :: Ran(s, w, outcome) && Offered(s.gateway, w) <= TaskEnvelopes(s.tasks[w], outcome)
  {
    OccursInv(s);
    var x := s.gateway.table[w];
    var wire := WireOf(s, x.conn);
    AllDispatched(s, w);
    NothingTakenUp(wire.inbox, wire.outcomes, x.key);
    if i :| 0 <= i < |wire.outcomes| && wire.inbox[i].w == w {
      PostsOfOthers(s, w, i);
      OneOfKey(wire.inbox, wire.outcomes, x.key, 0, i);
      assert Ran(s, w, wire.outcomes[i]);
    } else {
      PostsOfOthers(s, w, |wire.outcomes|);
      NothingOfKey(wire.inbox, wire.outcomes, x.key, 0);
    }
    hide SystemInv, Ran, TaskEnvelopes, OfKey, Offered;
  }

  lemma NothingTakenUp(inbox: seq<Post>, outcomes: seq<Outcome>, key: Key)
    ensures OfKey(Script(inbox, outcomes[..0]), key) == []
  {
  }

  lemma AllDispatched(s: System, w: WaiterId)
    requires SystemInv(s) && w < |s.gateway.table| && AloneOnItsConnection(s, w)
    ensures w < |s.tasks| && |WireOf(s, s.gateway.table[w].conn).outcomes| <= |WireOf(s, s.gateway.table[w].conn).inbox|
    ensures Offered(s.gateway, w) <= OfKey(ScriptOf(WireOf(s, s.gateway.table[w].conn)), s.gateway.table[w].key)
  {
    var x := s.gateway.table[w];
    OfferedIsAll(s, w);
    assert WireOk(s, x.conn) && LogOk(s, x.conn, x.key);
    OfKeyPrefix(WasRead(s, x.conn), ScriptOf(WireOf(s, x.conn)), x.key);
    hide Offered, DispatchedFor, OfKey, PostOk, BornOk, Inv, InHand;
  }

  // It was offered whatever its connection ever dispatched of its key.
  lemma OfferedIsAll(s: System, w: WaiterId)
    requires SystemInv(s) && w < |s.gateway.table| && AloneOnItsConnection(s, w)
    ensures MayCarry(s.gateway, s.gateway.table[w].conn, s.gateway.table[w].key)
    ensures Offered(s.gateway, w) == DispatchedFor(s.gateway.log, 0, s.gateway.table[w].conn, s.gateway.table[w].key)
  {
    var x := s.gateway.table[w];
    WaiterFacts(s.gateway, w);
    assert BornOk(s.gateway, w);
    assert FirstOfIts(s.gateway, w);
    DispatchedSplits(s.gateway.log, x.born, x.conn, x.key);
    assert [] + Offered(s.gateway, w) == Offered(s.gateway, w);
    hide DispatchedFor, LocalOk, ContextOf, WireOk, LogOk, Inv, NamesOk;
  }

  // Every other task in the inbox has another id.
  lemma PostsOfOthers(s: System, w: WaiterId, k: nat)
    requires SystemInv(s) && w < |s.gateway.table| && AloneOnItsConnection(s, w)
    requires var wire := WireOf(s, s.gateway.table[w].conn);
      && |wire.outcomes| <= |wire.inbox|
      && (if k < |wire.outcomes| then wire.inbox[k].w == w
          else forall i :: 0 <= i < |wire.outcomes| ==> wire.inbox[i].w != w)
    ensures var wire := WireOf(s, s.gateway.table[w].conn);
      && (forall i :: 0 <= i < |wire.outcomes| && i != k ==> EventKey(wire.inbox[i].task) != s.gateway.table[w].key)
      && (k < |wire.outcomes| ==>
            w < |s.tasks| && wire.inbox[k].task == s.tasks[w] && EventKey(s.tasks[w]) == s.gateway.table[w].key)
  {
    var c := s.gateway.table[w].conn;
    var wire := WireOf(s, c);
    assert WireOk(s, c);
    forall i | 0 <= i < |wire.outcomes| ensures PostOk(s, c, wire.inbox[i]) {
    }
    hide Inv, LogOk, BornOk;
  }

  lemma TasksStay(s: System, m: Move)
    requires CanMove(s, m)
    ensures s.tasks <= DoMove(s, m).tasks
  {
    hide CanMove, GatewayAfter, WiresAfter;
  }

  lemma {:induction false} TasksStayFor(s: System, run: seq<Move>)
    requires ExecMoves(s, run).Some?
    ensures s.tasks <= ExecMoves(s, run).value.tasks
    decreases |run|
  {
    hide CanMove, DoMove;
    if run != [] {
      TasksStay(s, run[0]);
      TasksStayFor(DoMove(s, run[0]), run[1..]);
    }
  }

  lemma AfterRunOccurs(s: System, run: seq<Move>)
    requires SystemInv(s) && ExecMoves(s, run).Some?
    ensures SystemInv(ExecMoves(s, run).value)
  {
    MovesKeep(s, run);
  }

  // The task that a browser sends is the one that is written to its connection, as it was sent,
  // and to no other; so it is what the runtime takes up for it.
  lemma TaskArrivesAsSent(s: System, task: Envelope, run: seq<Move>, c: Conn, i: nat)
    requires Occurs(s) && CanMove(s, Send(task)) && task.agentId in s.gateway.runtimes
    requires ExecMoves(DoMove(s, Send(task)), run).Some?
    requires var u := ExecMoves(DoMove(s, Send(task)), run).value;
      i < |WireOf(u, c).inbox| && WireOf(u, c).inbox[i].w == |s.tasks|
    ensures var u := ExecMoves(DoMove(s, Send(task)), run).value;
      && |s.tasks| < |u.gateway.table|
      && WireOf(u, c).inbox[i].task == task
      && u.gateway.table[|s.tasks|].conn == c && u.gateway.table[|s.tasks|].key == EventKey(task)
  {
    OccursInv(s);
    var t := DoMove(s, Send(task));
    MoveKeeps(s, Send(task));
    AfterRunOccurs(t, run);
    TasksStayFor(t, run);
    var u := ExecMoves(t, run).value;
    assert WireOk(u, c);
    assert t.tasks == s.tasks + [task];
    hide Occurs, ExecMoves, LogOk, BornOk, Inv, Script, GatewayAfter, WiresAfter;
  }

  // Whatever else goes on, the browser is shown a part of what its own task's loop writes, from
  // the start and in order, and at most one error of a sweep behind it.
  lemma BrowserSeesItsTask(s: System, w: WaiterId)
    requires Occurs(s) && w < |s.gateway.table| && AloneOnItsConnection(s, w)
    ensures w < |s.tasks|
    ensures var x := s.gateway.table[w];
      || IsDelivery(x.written, [], x.key)
      || exists outcome :: Ran(s, w, outcome) && IsDelivery(x.written, TaskEnvelopes(s.tasks[w], outcome), x.key)
  {
    GatewayIsReachable(s);
    OfferedIsOfItsTask(s, w);
    BrowserSeesPrefix(s.gateway, w);
    var x, offered := s.gateway.table[w], Offered(s.gateway, w);
    hide Ran, Occurs, Reachable, Offered, IsDelivery, TaskEnvelopes;
    if offered != [] {
      var outcome :| Ran(s, w, outcome) && offered <= TaskEnvelopes(s.tasks[w], outcome);
      DeliveryOfMore(x.written, offered, TaskEnvelopes(s.tasks[w], outcome), x.key);
    }
  }

  lemma DeliveryOfMore(written: seq<Envelope>, offered: seq<Envelope>, more: seq<Envelope>, key: Key)
    requires IsDelivery(written, offered, key) && offered <= more
    ensures IsDelivery(written, more, key)
  {
    CutIsPrefix(offered);
    hide CutAtTerminal;
    if NoTerminal(offered) {
      OpenPrefixWithinCut(offered, more);
    } else {
      PrefixWithTerminalIsCut(CutAtTerminal(offered), more);
    }
  }

  // When it is done, without a sweep and without having given up, it has been shown all of it.
  lemma BrowserSeesWholeTask(s: System, w: WaiterId)
    requires Occurs(s) && w < |s.gateway.table| && AloneOnItsConnection(s, w)
    requires var x := s.gateway.table[w]; !StillReading(x) && !x.quit && !x.fate.Swept?
    ensures w < |s.tasks|
    ensures OneDoneAtTheEnd(Responses(s.gateway.table[w].written))
    ensures exists outcome :: Ran(s, w, outcome) && s.gateway.table[w].written == TaskEnvelopes(s.tasks[w], outcome)
  {
    GatewayIsReachable(s);
    OfferedIsOfItsTask(s, w);
    UndisturbedChatIsComplete(s.gateway, w);
    var outcome :| Ran(s, w, outcome) && Offered(s.gateway, w) <= TaskEnvelopes(s.tasks[w], outcome);
    UndisturbedChatShowsWholeTask(s.gateway, w, s.tasks[w], outcome);
  }
}

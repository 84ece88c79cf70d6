/**
 When a message id may be used again on a connection: a browser can be brought events of another
 one's task if and only if the connection still owes some for the id when its own task is sent.
 */
module ChatReuse {
  import opened Wrappers
  import opened Envelopes
  import opened Protocol
  import opened ProtocolInvariant
  import opened ProtocolDelivery
  import opened ProtocolFrame
  import opened TaskLoop
  import opened EndToEnd
  import opened ChatSystem
  import opened ChatDelivery
  import Claw

  function Unread(s: System, c: Conn): seq<Envelope> {
    var wire := WireOf(s, c);
    if wire.read <= |wire.out| then wire.out[wire.read..] else []
  }

  function Unwritten(wire: Wire): seq<Envelope> {
    var script := ScriptOf(wire);
    if |wire.out| <= |script| then script[|wire.out|..] else []
  }

  // What its connection brings a waiter: dispatched for it, read but not dispatched yet, and on
  // the wire.
  function Brought(s: System, w: WaiterId): seq<Envelope>
    requires w < |s.gateway.table|
  {
    var x := s.gateway.table[w];
    Offered(s.gateway, w) + InHand(s.gateway, x.conn, x.key) + OfKey(Unread(s, x.conn), x.key)
  }

  // It is a part of what its task's loop writes, from the start and in order.
  ghost predicate BringsOwn(s: System, w: WaiterId) {
    && w < |s.gateway.table| && w < |s.tasks|
    && (|| Brought(s, w) == []
        || exists outcome :: Ran(s, w, outcome) && Brought(s, w) <= TaskEnvelopes(s.tasks[w], outcome))
  }

  // Every task with the id that was written to the connection has been answered, and the answers
  // have been dispatched; and no browser is about to write another one.
  ghost predicate NothingOwed(s: System, c: Conn, key: Key) {
    var wire := WireOf(s, c);
    && InHand(s.gateway, c, key) == []
    && OfKey(Unread(s, c), key) == []
    && OfKey(Unwritten(wire), key) == []
    && (forall i :: |wire.outcomes| <= i < |wire.inbox| ==> EventKey(wire.inbox[i].task) != key)
    && NobodySends(s.gateway, c, key, |s.gateway.table|)
  }

  predicate NobodySends(g: State, c: Conn, key: Key, w: WaiterId) {
    forall v :: 0 <= v < |g.table| && v != w && g.table[v].key == key && g.table[v].conn == c ==>
      !g.table[v].consumer.Sending?
  }

  // ----- if nothing is owed -----

  // From the n-th task on, only w's has the id, and what was dispatched before w was made for its
  // connection is all that was said before.
  ghost predicate Fenced(s: System, w: WaiterId, n: nat, before: seq<Envelope>) {
    && w < |s.gateway.table| &&
    var x := s.gateway.table[w];
    && Settled(s.gateway.log, x, before)
    && FencedWire(WireOf(s, x.conn), x.key, w, n, before)
    && NobodySends(s.gateway, x.conn, x.key, w)
  }

  ghost predicate Settled(log: seq<Dispatched>, x: Waiter, before: seq<Envelope>) {
    x.born <= |log| && DispatchedFor(log[..x.born], 0, x.conn, x.key) == before
  }

  ghost predicate FencedWire(wire: Wire, key: Key, w: WaiterId, n: nat, before: seq<Envelope>) {
    && n <= |wire.outcomes| <= |wire.inbox|
    && OfKey(Script(wire.inbox, wire.outcomes[..n]), key) == before
    && (forall i :: n <= i < |wire.inbox| && EventKey(wire.inbox[i].task) == key ==> wire.inbox[i].w == w)
  }

  lemma FencedAtFirst(s: System, task: Envelope)
    requires SystemInv(s) && CanMove(s, Send(task)) && task.agentId in s.gateway.runtimes
    requires NothingOwed(s, s.gateway.runtimes[task.agentId], EventKey(task))
    ensures var wire := WireOf(s, s.gateway.runtimes[task.agentId]);
      Fenced(DoMove(s, Send(task)), |s.gateway.table|, |wire.outcomes|, OfKey(ScriptOf(wire), EventKey(task)))
  {
    hide SystemInv, OfKey, DispatchedFor, NobodySends, Script, NothingOwed, DoSendTask;
    var g, key := s.gateway, EventKey(task);
    var c := g.runtimes[key.agentId];
    NewcomerIs(g, key);
    FencedGateway(s, c, key);
    WireFencedAtFirst(s, c, key, |g.table|);
  }

  lemma FencedGateway(s: System, c: Conn, key: Key)
    requires SystemInv(s) && key.agentId in s.gateway.runtimes && c == s.gateway.runtimes[key.agentId]
    requires NothingOwed(s, c, key)
    ensures var w, g := |s.gateway.table|, DoSendTask(s.gateway, key);
      && w < |g.table| && Settled(g.log, g.table[w], OfKey(ScriptOf(WireOf(s, c)), key))
      && NobodySends(g, c, key, w)
  {
    NewcomerIs(s.gateway, key);
    SendersStay(s.gateway, key, c);
    AllIsDispatched(s, c, key);
    hide Inv, WireOk, LogOk, BornOk, NamesOk, DoSendTask, OfKey, DispatchedFor, NobodySends, Script, InHand;
    assert s.gateway.log[..|s.gateway.log|] == s.gateway.log;
  }

  lemma WireFencedAtFirst(s: System, c: Conn, key: Key, w: WaiterId)
    requires SystemInv(s) && NothingOwed(s, c, key)
    ensures var wire := WireOf(s, c); FencedWire(wire, key, w, |wire.outcomes|, OfKey(ScriptOf(wire), key))
  {
    var wire := WireOf(s, c);
    assert WireOk(s, c);
    assert wire.outcomes[..|wire.outcomes|] == wire.outcomes;
    hide SystemInv, OfKey, NobodySends, PostOk, Script, InHand;
  }

  lemma SendersStay(g: State, key: Key, c: Conn)
    requires key.agentId in g.runtimes && NobodySends(g, c, key, |g.table|)
    ensures NobodySends(DoSendTask(g, key), c, key, |g.table|)
  {
  }

  lemma AllIsDispatched(s: System, c: Conn, key: Key)
    requires SystemInv(s) && NothingOwed(s, c, key) && MayCarry(s.gateway, c, key)
    ensures DispatchedFor(s.gateway.log, 0, c, key) == OfKey(ScriptOf(WireOf(s, c)), key)
  {
    hide OfKey, DispatchedFor, Script, NobodySends, InHand, Unread, Unwritten, WasRead, WireOk, Inv, NamesOk, BornOk;
    assert LogOk(s, c, key);
    WireInThree(s, c, key);
  }

  // What was read, what is on the wire and what is still to be written make up the script.
  lemma WireInThree(s: System, c: Conn, key: Key)
    requires SystemInv(s)
    ensures OfKey(WasRead(s, c), key) + OfKey(Unread(s, c), key) == OfKey(WireOf(s, c).out, key)
    ensures OfKey(WireOf(s, c).out, key) + OfKey(Unwritten(WireOf(s, c)), key) == OfKey(ScriptOf(WireOf(s, c)), key)
  {
    hide OfKey, Script, Inv, NamesOk, LogOk, BornOk, PostOk;
    var wire := WireOf(s, c);
    assert WireOk(s, c);
    OfKeyConcat(WasRead(s, c), Unread(s, c), key);
    OfKeyConcat(wire.out, Unwritten(wire), key);
    assert WasRead(s, c) + Unread(s, c) == wire.out;
    assert wire.out + Unwritten(wire) == ScriptOf(wire);
  }

  lemma FencedStays(s: System, m: Move, w: WaiterId, n: nat, before: seq<Envelope>)
    requires SystemInv(s) && CanMove(s, m) && Fenced(s, w, n, before)
    requires m.Send? ==> EventKey(m.task) != s.gateway.table[w].key
    ensures Fenced(DoMove(s, m), w, n, before)
    ensures SameName(s.gateway.table[w], DoMove(s, m).gateway.table[w])
  {
    var x := s.gateway.table[w];
    if PartOf(s, m).Some? {
      NameStays(s.gateway, PartOf(s, m).value, w);
      LogGrows(s.gateway, PartOf(s, m).value);
      NobodyElseSends(s, m, w);
    }
    FencedWireStays(s, m, w, n, before);
    hide SystemInv, CanMove, WiresAfter, DispatchedFor, OfKey, Script, NobodySends, FencedWire, Do, Can;
    assert DoMove(s, m).gateway.log[..x.born] == s.gateway.log[..x.born];
  }

  lemma NobodyElseSends(s: System, m: Move, w: WaiterId)
    requires CanMove(s, m) && PartOf(s, m).Some? && w < |s.gateway.table|
    requires m.Send? ==> EventKey(m.task) != s.gateway.table[w].key
    requires NobodySends(s.gateway, s.gateway.table[w].conn, s.gateway.table[w].key, w)
    ensures NobodySends(GatewayAfter(s, m), s.gateway.table[w].conn, s.gateway.table[w].key, w)
  {
    var g, a := s.gateway, PartOf(s, m).value;
    var h := Do(g, a);
    if m.Send? { NewcomersName(g, a.key); } else { TableStays(g, a); }
    forall v | 0 <= v < |g.table| && v != w && h.table[v].key == g.table[w].key && h.table[v].conn == g.table[w].conn
      ensures !h.table[v].consumer.Sending?
    {
      NameStays(g, a, v);
      SentForGood(g, a, v);
    }
    hide Can, Do, CanMove;
  }

  lemma NewcomersName(g: State, key: Key)
    ensures forall v :: |g.table| <= v < |DoSendTask(g, key).table| ==> DoSendTask(g, key).table[v].key == key
  {
  }

  lemma FencedWireStays(s: System, m: Move, w: WaiterId, n: nat, before: seq<Envelope>)
    requires SystemInv(s) && CanMove(s, m) && Fenced(s, w, n, before)
    ensures FencedWire(WireOf(DoMove(s, m), s.gateway.table[w].conn), s.gateway.table[w].key, w, n, before)
  {
    hide SystemInv, CanMove, DoMove, Settled, NobodySends, FencedWire, WireOf;
    var c, key := s.gateway.table[w].conn, s.gateway.table[w].key;
    KnownWire(s, c);
    WriterIsKnown(s, m);
    if m.Write? && m.arrives && s.gateway.table[m.w].conn == c {
      PostIsNew(s, m, c);
      OwnOrOther(s, m, w);
      FencedPost(WireOf(s, c), WireOf(DoMove(s, m), c), Post(m.w, s.tasks[m.w]), key, w, n, before);
    } else {
      OtherMovesOnWire(s, m, c);
      FencedElse(WireOf(s, c), WireOf(DoMove(s, m), c), key, w, n, before);
    }
  }

  lemma WriterIsKnown(s: System, m: Move)
    requires CanMove(s, m)
    ensures m.Write? ==> m.w < |s.gateway.table| && m.w < |s.tasks|
  {
  }

  lemma KnownWire(s: System, c: Conn)
    requires SystemInv(s)
    ensures WireOk(s, c) && NamesOk(s)
  {
  }

  lemma FencedPost(wire: Wire, more: Wire, post: Post, key: Key, w: WaiterId, n: nat, before: seq<Envelope>)
    requires FencedWire(wire, key, w, n, before) && more == wire.(inbox := wire.inbox + [post])
    requires EventKey(post.task) == key ==> post.w == w
    ensures FencedWire(more, key, w, n, before)
  {
    ScriptOfLonger(wire.inbox, wire.outcomes[..n], post);
    hide OfKey, Script;
  }

  lemma FencedElse(wire: Wire, other: Wire, key: Key, w: WaiterId, n: nat, before: seq<Envelope>)
    requires FencedWire(wire, key, w, n, before) && other.inbox == wire.inbox
    requires wire.outcomes <= other.outcomes && |other.outcomes| <= |other.inbox|
    ensures FencedWire(other, key, w, n, before)
  {
    hide OfKey, Script;
    assert other.outcomes[..n] == wire.outcomes[..n];
  }

  // A task of the id that is written to the connection is w's own.
  lemma OwnOrOther(s: System, m: Move, w: WaiterId)
    requires SystemInv(s) && CanMove(s, m) && m.Write? && w < |s.gateway.table|
    requires NobodySends(s.gateway, s.gateway.table[w].conn, s.gateway.table[w].key, w)
    ensures s.gateway.table[m.w].conn == s.gateway.table[w].conn && EventKey(s.tasks[m.w]) == s.gateway.table[w].key
      ==> m.w == w
  {
    hide Inv;
  }

  // Then its connection brings it only its own.
  lemma FencedIsOwn(s: System, w: WaiterId, n: nat, before: seq<Envelope>)
    requires SystemInv(s) && Fenced(s, w, n, before)
    ensures BringsOwn(s, w)
  {
    hide SystemInv, Brought, OfKey, Script, TaskEnvelopes, Settled, NobodySends, Ran;
    var x := s.gateway.table[w];
    var wire := WireOf(s, x.conn);
    var brought := Brought(s, w);
    BroughtIsSaid(s, w, before);
    OwnTaskIsKnown(s, w);
    if i :| n <= i < |wire.outcomes| && EventKey(wire.inbox[i].task) == x.key {
      OneOfKey(wire.inbox, wire.outcomes, x.key, n, i);
      WithoutFront(before, brought, TaskEnvelopes(s.tasks[w], wire.outcomes[i]));
      RanFrom(s, w, i);
    } else {
      NothingOfKey(wire.inbox, wire.outcomes, x.key, n);
      assert |before + brought| <= |before|;
    }
  }

  lemma WithoutFront(front: seq<Envelope>, a: seq<Envelope>, b: seq<Envelope>)
    requires front + a <= front + b
    ensures a <= b
  {
    assert forall i :: 0 <= i < |a| ==> a[i] == (front + a)[|front| + i] == (front + b)[|front| + i] == b[i];
  }

  lemma RanFrom(s: System, w: WaiterId, i: nat)
    requires w < |s.gateway.table|
    requires var wire := WireOf(s, s.gateway.table[w].conn);
      i < |wire.inbox| && i < |wire.outcomes| && wire.inbox[i].w == w
    ensures Ran(s, w, WireOf(s, s.gateway.table[w].conn).outcomes[i])
  {
  }

  // Behind what was dispatched before comes what the connection brings it.
  lemma BroughtIsSaid(s: System, w: WaiterId, before: seq<Envelope>)
    requires SystemInv(s) && w < |s.gateway.table| && Settled(s.gateway.log, s.gateway.table[w], before)
    ensures before + Brought(s, w)
         <= OfKey(ScriptOf(WireOf(s, s.gateway.table[w].conn)), s.gateway.table[w].key)
  {
    hide SystemInv, OfKey, DispatchedFor, Script, InHand, Offered, Settled, LogOk;
    var x := s.gateway.table[w];
    DispatchedAndInHand(s, w, before);
    WireInThree(s, x.conn, x.key);
    Reassociated(before, Offered(s.gateway, w), InHand(s.gateway, x.conn, x.key), OfKey(Unread(s, x.conn), x.key));
  }

  lemma Reassociated(a: seq<Envelope>, b: seq<Envelope>, c: seq<Envelope>, d: seq<Envelope>)
    ensures a + (b + c + d) == (a + b + c) + d
  {
  }

  lemma DispatchedAndInHand(s: System, w: WaiterId, before: seq<Envelope>)
    requires SystemInv(s) && w < |s.gateway.table| && Settled(s.gateway.log, s.gateway.table[w], before)
    ensures var x := s.gateway.table[w];
      before + Offered(s.gateway, w) + InHand(s.gateway, x.conn, x.key) == OfKey(WasRead(s, x.conn), x.key)
  {
    var x := s.gateway.table[w];
    WaiterFacts(s.gateway, w);
    assert LogOk(s, x.conn, x.key);
    DispatchedSplits(s.gateway.log, x.born, x.conn, x.key);
    hide SystemInv, OfKey, DispatchedFor, InHand, LocalOk, ContextOf, WasRead;
  }

  lemma OwnTaskIsKnown(s: System, w: WaiterId)
    requires SystemInv(s) && w < |s.gateway.table|
    ensures var wire := WireOf(s, s.gateway.table[w].conn);
      w < |s.tasks| && forall i :: 0 <= i < |wire.inbox| && wire.inbox[i].w == w ==> wire.inbox[i].task == s.tasks[w]
    ensures var wire := WireOf(s, s.gateway.table[w].conn);
      forall i, j :: 0 <= i < j < |wire.inbox| ==> wire.inbox[i].w != wire.inbox[j].w
  {
    assert WireOk(s, s.gateway.table[w].conn);
  }

  // ----- if something is owed -----

  // The runtime takes up all its tasks and answers them; the gateway does nothing.
  predicate ByRuntimeOf(m: Move, c: Conn) {
    (m.Take? || m.Emit?) && m.c == c
  }

  ghost predicate Finished(s: System, u: System, c: Conn) {
    var wire, done := WireOf(s, c), WireOf(u, c);
    && u.gateway == s.gateway && u.tasks == s.tasks
    && done.inbox == wire.inbox && done.read == wire.read
    && wire.outcomes <= done.outcomes && |done.outcomes| == |done.inbox|
    && done.out == ScriptOf(done)
  }

  lemma {:induction false} FinishesAll(s: System, c: Conn) returns (run: seq<Move>, u: System)
    requires |WireOf(s, c).outcomes| <= |WireOf(s, c).inbox| && WireOf(s, c).out <= ScriptOf(WireOf(s, c))
    ensures ExecMoves(s, run) == Some(u) && Finished(s, u, c)
    ensures forall i :: 0 <= i < |run| ==> ByRuntimeOf(run[i], c)
    decreases |WireOf(s, c).inbox| - |WireOf(s, c).outcomes|, |ScriptOf(WireOf(s, c))| - |WireOf(s, c).out|
  {
    var wire := WireOf(s, c);
    hide Script, Can, Do;
    if |wire.out| < |ScriptOf(wire)| {
      run, u := FinishesAll(DoMove(s, Emit(c)), c);
      run := [Emit(c)] + run;
      assert run[1..] + [] == run[1..];
    } else if |wire.outcomes| < |wire.inbox| {
      OneMoreOutcome(wire, StartFails(""));
      run, u := FinishesAll(DoMove(s, Take(c, StartFails(""))), c);
      run := [Take(c, StartFails(""))] + run;
      assert run[1..] + [] == run[1..];
    } else {
      run, u := [], s;
    }
  }

  // A task that is not answered yet makes the answers longer.
  lemma MoreOfKey(wire: Wire, done: Wire, key: Key)
    requires done.inbox == wire.inbox && wire.outcomes <= done.outcomes && |done.outcomes| == |done.inbox|
    requires wire.out <= ScriptOf(wire)
    requires OfKey(Unwritten(wire), key) != []
      || exists k :: |wire.outcomes| <= k < |wire.inbox| && EventKey(wire.inbox[k].task) == key
    ensures |OfKey(ScriptOf(done), key)| > |OfKey(wire.out, key)|
  {
    var n := |wire.outcomes|;
    assert done.outcomes[..n] == wire.outcomes;
    hide Script, OfKey, TaskEnvelopes;
    OfKeyConcat(wire.out, Unwritten(wire), key);
    assert wire.out + Unwritten(wire) == ScriptOf(wire);
    ScriptGrows(done.inbox, done.outcomes, n);
    OfKeyPrefix(ScriptOf(wire), ScriptOf(done), key);
    if k :| n <= k < |wire.inbox| && EventKey(wire.inbox[k].task) == key { UnansweredIsMore(wire, done, key, k); }
  }

  lemma UnansweredIsMore(wire: Wire, done: Wire, key: Key, k: nat)
    requires done.inbox == wire.inbox && wire.outcomes <= done.outcomes && |done.outcomes| == |done.inbox|
    requires |wire.outcomes| <= k < |wire.inbox| && EventKey(wire.inbox[k].task) == key
    ensures |OfKey(ScriptOf(done), key)| > |OfKey(ScriptOf(wire), key)|
  {
    var n := |wire.outcomes|;
    var upTo := done.outcomes[..k + 1];
    assert upTo[..k] == done.outcomes[..k] && done.outcomes[..k][..n] == wire.outcomes;
    TaskEndsExactlyOnce(done.inbox[k].task, upTo[k]);
    hide Script, OfKey, TaskEnvelopes;
    LastOfKey(done.inbox, upTo, key);
    ScriptGrows(done.inbox, done.outcomes[..k], n);
    ScriptGrows(done.inbox, done.outcomes, k + 1);
    OfKeyPrefix(ScriptOf(wire), Script(done.inbox, done.outcomes[..k]), key);
    OfKeyPrefix(Script(done.inbox, upTo), ScriptOf(done), key);
  }

  predicate NoMoreSends(run: seq<Move>, key: Key) {
    forall i :: 0 <= i < |run| && run[i].Send? ==> EventKey(run[i].task) != key
  }

  // The newcomer, just parked.
  ghost predicate Parked(t: System, w: WaiterId) {
    && SystemInv(t) && w < |t.gateway.table| && t.gateway.table[w].born == |t.gateway.log|
    && forall i :: 0 <= i < |WireOf(t, t.gateway.table[w].conn).inbox| ==>
         WireOf(t, t.gateway.table[w].conn).inbox[i].w != w
  }

  // It is brought something, and its own task is not taken up.
  lemma ForeignIsBrought(t: System, w: WaiterId)
    requires w < |t.gateway.table| && Brought(t, w) != []
    requires forall i :: 0 <= i < |WireOf(t, t.gateway.table[w].conn).inbox| ==>
      WireOf(t, t.gateway.table[w].conn).inbox[i].w != w
    ensures !BringsOwn(t, w)
  {
  }

  // What is still to be written comes.
  lemma OwedComes(t: System, w: WaiterId) returns (run: seq<Move>, u: System)
    requires Parked(t, w)
    requires var c, key := t.gateway.table[w].conn, t.gateway.table[w].key;
      var wire := WireOf(t, c);
      && OfKey(Unread(t, c), key) == []
      && (OfKey(Unwritten(wire), key) != []
          || exists k :: |wire.outcomes| <= k < |wire.inbox| && EventKey(wire.inbox[k].task) == key)
    ensures ExecMoves(t, run) == Some(u) && !BringsOwn(u, w) && NoMoreSends(run, t.gateway.table[w].key)
  {
    hide SystemInv, Script, OfKey, BringsOwn, ExecMoves, Unread, Unwritten, Offered;
    var c, key := t.gateway.table[w].conn, t.gateway.table[w].key;
    ParkedWire(t, c);
    run, u := FinishesAll(t, c);
    MoreOfKey(WireOf(t, c), WireOf(u, c), key);
    MoreIsUnread(t, u, c, key);
    ForeignIsBrought(u, w);
  }

  lemma ParkedWire(t: System, c: Conn)
    requires SystemInv(t)
    ensures var wire := WireOf(t, c);
      wire.read <= |wire.out| && |wire.outcomes| <= |wire.inbox| && wire.out <= ScriptOf(wire)
  {
    assert WireOk(t, c);
  }

  lemma MoreIsUnread(t: System, u: System, c: Conn, key: Key)
    requires Finished(t, u, c) && OfKey(Unread(t, c), key) == []
    requires var wire := WireOf(t, c);
      wire.read <= |wire.out| && |wire.outcomes| <= |wire.inbox| && wire.out <= ScriptOf(wire)
    requires |OfKey(WireOf(u, c).out, key)| > |OfKey(WireOf(t, c).out, key)|
    ensures OfKey(Unread(u, c), key) != []
  {
    hide Script, OfKey;
    var wire, done := WireOf(t, c), WireOf(u, c);
    ScriptGrows(done.inbox, done.outcomes, |wire.outcomes|);
    assert done.outcomes[..|wire.outcomes|] == wire.outcomes;
    OfKeyConcat(wire.out[..wire.read], Unread(t, c), key);
    OfKeyConcat(done.out[..done.read], Unread(u, c), key);
    assert wire.out[..wire.read] + Unread(t, c) == wire.out;
    assert done.out[..done.read] + Unread(u, c) == done.out;
    assert done.out[..done.read] == wire.out[..wire.read];
  }

  lemma OwedIsBrought(t: System, w: WaiterId) returns (run: seq<Move>, u: System)
    requires Parked(t, w)
    requires var c, key := t.gateway.table[w].conn, t.gateway.table[w].key;
      var wire := WireOf(t, c);
      || InHand(t.gateway, c, key) != []
      || OfKey(Unread(t, c), key) != []
      || OfKey(Unwritten(wire), key) != []
      || (exists i :: |wire.outcomes| <= i < |wire.inbox| && EventKey(wire.inbox[i].task) == key)
      || !NobodySends(t.gateway, c, key, w)
    ensures ExecMoves(t, run) == Some(u) && !BringsOwn(u, w) && NoMoreSends(run, t.gateway.table[w].key)
  {
    var c, key := t.gateway.table[w].conn, t.gateway.table[w].key;
    var wire := WireOf(t, c);
    hide OfKey, BringsOwn, Script, InHand, SystemInv;
    if InHand(t.gateway, c, key) != [] || OfKey(Unread(t, c), key) != [] {
      run, u := [], t;
      ForeignIsBrought(t, w);
    } else if OfKey(Unwritten(wire), key) != []
        || exists i :: |wire.outcomes| <= i < |wire.inbox| && EventKey(wire.inbox[i].task) == key {
      run, u := OwedComes(t, w);
    } else {
      run, u := WriterComes(t, w);
    }
  }

  lemma WriterComes(t: System, w: WaiterId) returns (run: seq<Move>, u: System)
    requires Parked(t, w)
    requires OfKey(Unread(t, t.gateway.table[w].conn), t.gateway.table[w].key) == []
    requires !NobodySends(t.gateway, t.gateway.table[w].conn, t.gateway.table[w].key, w)
    ensures ExecMoves(t, run) == Some(u) && !BringsOwn(u, w) && NoMoreSends(run, t.gateway.table[w].key)
  {
    hide OfKey, BringsOwn, Script, SystemInv, CanMove, DoMove, Unwritten;
    var v :| 0 <= v < |t.gateway.table| && v != w && t.gateway.table[v].key == t.gateway.table[w].key
      && t.gateway.table[v].conn == t.gateway.table[w].conn && t.gateway.table[v].consumer.Sending?;
    WriterOwes(t, w, v);
    run, u := OwedComes(DoMove(t, Write(v, true, true)), w);
    run := [Write(v, true, true)] + run;
    assert run[1..] + [] == run[1..];
  }

  // Another browser of the id writes its task.
  lemma WriterOwes(t: System, w: WaiterId, v: WaiterId)
    requires Parked(t, w) && v < |t.gateway.table| && v != w
    requires t.gateway.table[v].key == t.gateway.table[w].key && t.gateway.table[v].conn == t.gateway.table[w].conn
    requires t.gateway.table[v].consumer.Sending?
    ensures CanMove(t, Write(v, true, true))
    ensures var c, u := t.gateway.table[w].conn, DoMove(t, Write(v, true, true));
      && Parked(u, w) && SameName(t.gateway.table[w], u.gateway.table[w])
      && WireOf(u, c).out == WireOf(t, c).out && WireOf(u, c).read == WireOf(t, c).read
      && |WireOf(u, c).outcomes| <= |WireOf(u, c).inbox| - 1
      && EventKey(WireOf(u, c).inbox[|WireOf(u, c).inbox| - 1].task) == t.gateway.table[w].key
  {
    var c, m := t.gateway.table[w].conn, Write(v, true, true);
    assert WireOk(t, c);
    MoveKeeps(t, m);
    PostIsNew(t, m, c);
    NameStays(t.gateway, WriteTask(v, true), w);
    OnlySnapshotLogs(t.gateway, WriteTask(v, true));
    hide SystemInv, PostOk, Script, Do;
  }

  // ----- put together -----

  lemma {:induction false} FencedForEver(s: System, run: seq<Move>, w: WaiterId, n: nat, before: seq<Envelope>)
    requires SystemInv(s) && Fenced(s, w, n, before) && ExecMoves(s, run).Some?
    requires NoMoreSends(run, s.gateway.table[w].key)
    ensures BringsOwn(ExecMoves(s, run).value, w)
    decreases |run|
  {
    hide SystemInv, CanMove, DoMove, BringsOwn;
    if run == [] {
      FencedIsOwn(s, w, n, before);
    } else {
      FencedStays(s, run[0], w, n, before);
      MoveKeeps(s, run[0]);
      FencedForEver(DoMove(s, run[0]), run[1..], w, n, before);
    }
  }

  lemma IsParked(s: System, task: Envelope)
    requires SystemInv(s) && CanMove(s, Send(task)) && task.agentId in s.gateway.runtimes
    ensures var t, w, c, key := DoMove(s, Send(task)), |s.gateway.table|, s.gateway.runtimes[task.agentId], EventKey(task);
      && Parked(t, w) && t.gateway.table[w].conn == c && t.gateway.table[w].key == key
      && t.wires == s.wires && InHand(t.gateway, c, key) == InHand(s.gateway, c, key)
      && (NobodySends(t.gateway, c, key, w) ==> NobodySends(s.gateway, c, key, w))
  {
    var c := s.gateway.runtimes[task.agentId];
    assert WireOk(s, c);
    MoveKeeps(s, Send(task));
    NewcomerIs(s.gateway, EventKey(task));
    SendersWere(s.gateway, EventKey(task), c);
    forall i | 0 <= i < |WireOf(s, c).inbox| ensures WireOf(s, c).inbox[i].w != |s.gateway.table| {
      assert PostOk(s, c, WireOf(s, c).inbox[i]);
    }
    HandStays(s.gateway, SendTask(EventKey(task)), c, EventKey(task));
    hide SystemInv, DoSendTask, NobodySends, Script;
  }

  lemma SendersWere(g: State, key: Key, c: Conn)
    requires key.agentId in g.runtimes
    ensures NobodySends(DoSendTask(g, key), c, key, |g.table|) ==> NobodySends(g, c, key, |g.table|)
  {
    var h := DoSendTask(g, key);
    if NobodySends(h, c, key, |g.table|) {
      forall v | 0 <= v < |g.table| && g.table[v].key == key && g.table[v].conn == c
        ensures !g.table[v].consumer.Sending?
      {
        assert h.table[v] == g.table[v].(fate := h.table[v].fate);
      }
    }
  }

  ghost predicate AlwaysBringsOwn(t: System, w: WaiterId, key: Key) {
    forall run :: NoMoreSends(run, key) && ExecMoves(t, run).Some? ==> BringsOwn(ExecMoves(t, run).value, w)
  }

  // At the moment a task is sent: whatever happens, its connection brings its browser nothing but
  // the answer to this task, as long as the id is not used yet again, if and only if the
  // connection owes nothing for the id.
  lemma BringsOwnIff(s: System, task: Envelope)
    requires Occurs(s) && CanMove(s, Send(task)) && task.agentId in s.gateway.runtimes
    ensures AlwaysBringsOwn(DoMove(s, Send(task)), |s.gateway.table|, EventKey(task))
      <==> NothingOwed(s, s.gateway.runtimes[task.agentId], EventKey(task))
  {
    var t, w, c, key := DoMove(s, Send(task)), |s.gateway.table|, s.gateway.runtimes[task.agentId], EventKey(task);
    OccursInv(s);
    IsParked(s, task);
    if NothingOwed(s, c, key) {
      FencedAtFirst(s, task);
      forall run | NoMoreSends(run, key) && ExecMoves(t, run).Some? ensures BringsOwn(ExecMoves(t, run).value, w) {
        FencedForEver(t, run, w, |WireOf(s, c).outcomes|, OfKey(ScriptOf(WireOf(s, c)), key));
      }
    } else {
      var run, u := OwedIsBrought(t, w);
      assert NoMoreSends(run, key) && ExecMoves(t, run).Some?;
    }
    hide SystemInv, Occurs, CanMove, DoMove, BringsOwn, OfKey, InHand, NobodySends, Script, Fenced;
  }

  // What is brought is all that can be shown.
  lemma ShownIsBrought(s: System, w: WaiterId)
    requires Occurs(s) && BringsOwn(s, w)
    ensures var x := s.gateway.table[w];
      || IsDelivery(x.written, [], x.key)
      || exists outcome :: Ran(s, w, outcome) && IsDelivery(x.written, TaskEnvelopes(s.tasks[w], outcome), x.key)
  {
    hide Ran, Occurs, Reachable, Offered, IsDelivery, TaskEnvelopes, Brought;
    GatewayIsReachable(s);
    BrowserSeesPrefix(s.gateway, w);
    OfferedIsBrought(s, w);
    var x, offered := s.gateway.table[w], Offered(s.gateway, w);
    if Brought(s, w) != [] {
      var outcome :| Ran(s, w, outcome) && Brought(s, w) <= TaskEnvelopes(s.tasks[w], outcome);
      DeliveryOfMore(x.written, offered, TaskEnvelopes(s.tasks[w], outcome), x.key);
    } else {
      DeliveryOfMore(x.written, offered, [], x.key);
    }
  }

  // When the browser is done, without a sweep and without having given up, it has been shown all
  // of its own answer.
  lemma BroughtOwnIsShownWhole(s: System, w: WaiterId)
    requires Occurs(s) && BringsOwn(s, w)
    requires var x := s.gateway.table[w]; !StillReading(x) && !x.quit && !x.fate.Swept?
    ensures OneDoneAtTheEnd(Responses(s.gateway.table[w].written))
    ensures exists outcome :: Ran(s, w, outcome) && s.gateway.table[w].written == TaskEnvelopes(s.tasks[w], outcome)
  {
    hide Ran, Occurs, Reachable, Offered, TaskEnvelopes, Brought;
    GatewayIsReachable(s);
    UndisturbedChatIsComplete(s.gateway, w);
    CutIsPrefix(Offered(s.gateway, w));
    OfferedIsBrought(s, w);
    assert Offered(s.gateway, w) != [];
    var outcome :| Ran(s, w, outcome) && Brought(s, w) <= TaskEnvelopes(s.tasks[w], outcome);
    UndisturbedChatShowsWholeTask(s.gateway, w, s.tasks[w], outcome);
  }

  // And so it has read all that its own task's adapter said, and nothing else.
  lemma BroughtOwnIsRead(s: System, w: WaiterId)
    requires Occurs(s) && BringsOwn(s, w)
    requires var x := s.gateway.table[w]; !StillReading(x) && !x.quit && !x.fate.Swept?
    ensures var rs := Responses(s.gateway.table[w].written);
      exists outcome :: Ran(s, w, outcome) && (outcome.Stream? ==> ResponseText(rs) == Claw.Shown(Heard(outcome.events)))
  {
    BroughtOwnIsShownWhole(s, w);
    var outcome :| Ran(s, w, outcome) && s.gateway.table[w].written == TaskEnvelopes(s.tasks[w], outcome);
    if outcome.Stream? {
      ResponsesSayDeltas(s.gateway.table[w].written);
      TextIsConserved(s.tasks[w], outcome.events);
    }
    hide Occurs, BringsOwn, TaskEnvelopes, Ran, ResponseText, DeltaText, Claw.Shown, Heard;
  }

  lemma OfferedIsBrought(s: System, w: WaiterId)
    requires w < |s.gateway.table|
    ensures Offered(s.gateway, w) <= Brought(s, w)
  {
  }
}

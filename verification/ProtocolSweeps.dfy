/**
 Who is registered, when a sweep starts, and what it tells: a connection is replaced only by one of
 its agent's, a sweep starts only when the registered connection is replaced or goes, it takes only
 chats that lost their connection, and its errors tell which of the two it was.
 */
module ProtocolSweeps {
  import opened Wrappers
  import opened Envelopes
  import opened Protocol
  import opened ProtocolInvariant
  import opened ProtocolDelivery
  import opened ProtocolFrame
  import opened ProtocolProgress

  // ----- who is registered -----

  predicate IsRegistered(s: State, agentId: string, c: Conn) {
    agentId in s.runtimes && s.runtimes[agentId] == c
  }

  predicate IsConnOf(s: State, c: Conn, agentId: string) {
    c in s.readers && s.readers[c].agentId == agentId
  }

  // A connection becomes an agent's if and only if it registers for it, and ceases to be if and
  // only if it unregisters or another one registers.
  lemma RegistrationIff(s: State, a: Action, agentId: string, c: Conn)
    requires Can(s, a)
    ensures !IsRegistered(s, agentId, c) ==>
      (IsRegistered(Do(s, a), agentId, c) <==> a == Register(c) && IsConnOf(s, c, agentId))
    ensures IsRegistered(s, agentId, c) ==>
      (!IsRegistered(Do(s, a), agentId, c) <==> Displaces(s, a, agentId, c))
  {
    if a.Register? || a.Unregister? {
      Registering(s, a, agentId, c);
    } else {
      OthersKeepRegistered(s, a);
    }
    hide Can, Do;
  }

  predicate Displaces(s: State, a: Action, agentId: string, c: Conn) {
    || (a == Unregister(c) && IsConnOf(s, c, agentId))
    || (a.Register? && a.c != c && IsConnOf(s, a.c, agentId))
  }

  lemma Registering(s: State, a: Action, agentId: string, c: Conn)
    requires Can(s, a) && (a.Register? || a.Unregister?)
    ensures !IsRegistered(s, agentId, c) ==>
      (IsRegistered(Do(s, a), agentId, c) <==> a == Register(c) && IsConnOf(s, c, agentId))
    ensures IsRegistered(s, agentId, c) ==>
      (!IsRegistered(Do(s, a), agentId, c) <==> Displaces(s, a, agentId, c))
  {
  }

  lemma OthersKeepRegistered(s: State, a: Action)
    requires Can(s, a) && !a.Register? && !a.Unregister?
    ensures Do(s, a).runtimes == s.runtimes
  {
    if ByRuntime(a) { ReadersKeepRegistered(s, a); } else { BrowsersKeepRegistered(s, a); }
    hide Can, Do;
  }

  lemma ReadersKeepRegistered(s: State, a: Action)
    requires Can(s, a) && ByRuntime(a) && !a.Register? && !a.Unregister?
    ensures Do(s, a).runtimes == s.runtimes
  {
  }

  lemma BrowsersKeepRegistered(s: State, a: Action)
    requires Can(s, a) && !ByRuntime(a)
    ensures Do(s, a).runtimes == s.runtimes
  {
  }

  // ----- when a sweep starts -----

  // While nobody holds the registry's lock, a sweep starts if and only if a connection registers
  // in the place of another one, or the registered one unregisters.
  lemma SweepStartsIff(s: State, a: Action, c: Conn)
    requires Can(s, a) && s.lock.None?
    ensures Do(s, a).lock == Some(c) <==>
      || (a == Register(c) && exists d :: d != c && IsRegistered(s, s.readers[c].agentId, d))
      || (a == Unregister(c) && IsRegistered(s, s.readers[c].agentId, c))
  {
    if a.Register? {
      var agentId := s.readers[a.c].agentId;
      assert agentId in s.runtimes ==> IsRegistered(s, agentId, s.runtimes[agentId]);
    } else if !a.Unregister? {
      OthersStartNone(s, a);
    }
  }

  lemma OthersStartNone(s: State, a: Action)
    requires Can(s, a) && s.lock.None? && !a.Register? && !a.Unregister?
    ensures Do(s, a).lock == None
  {
  }

  // ----- why a sweep is made -----

  // The sweep resumes if and only if its connection is the registered one; and then no chat it
  // may come to has its task there.
  ghost predicate ReasonOk(s: State) {
    s.lock.Some? && s.lock.value in s.readers ==>
      var c := s.lock.value;
      var agentId := s.readers[c].agentId;
      HoldsRegistry(s.readers[c].pc) ==>
        && (s.readers[c].pc.resume ==> IsRegistered(s, agentId, c))
        && (!s.readers[c].pc.resume ==> agentId !in s.runtimes)
        && (s.readers[c].pc.resume ==> forall w :: 0 <= w < |s.table| && s.table[w].fate.Live? ==> s.table[w].conn != c)
  }

  lemma ReasonStep(s: State, a: Action)
    requires Inv(s) && ReasonOk(s) && Can(s, a)
    ensures ReasonOk(Do(s, a))
  {
    if s.lock.None? {
      if a.Register? { ReplacingIsReason(s, a.c); } else if !a.Unregister? { OthersStartNone(s, a); }
    } else {
      ReasonWhileLocked(s, a);
    }
    hide Inv;
  }

  lemma ReplacingIsReason(s: State, c: Conn)
    requires Inv(s) && CanRegister(s, c)
    ensures ReasonOk(DoRegister(s, c))
  {
    forall w | 0 <= w < |s.table| ensures s.table[w].conn != c {
      WaiterFacts(s, w);
    }
    hide Inv, LocalOk;
  }

  lemma ReasonWhileLocked(s: State, a: Action)
    requires Inv(s) && ReasonOk(s) && Can(s, a) && s.lock.Some?
    ensures ReasonOk(Do(s, a))
  {
    var c := s.lock.value;
    ReaderFacts(s, c);
    LockedStays(s, a);
    OthersKeepRegistered(s, a);
    forall w | 0 <= w < |Do(s, a).table| && Do(s, a).table[w].fate.Live?
      ensures w < |s.table| && s.table[w].fate.Live? && s.table[w].conn == Do(s, a).table[w].conn
    {
      NameStays(s, a, w);
      LiveWasLive(s, a, w);
    }
    if Do(s, a).lock.Some? { SweepKeepsReason(s, a); }
    hide Inv, Can, Do;
  }

  lemma LockedStays(s: State, a: Action)
    requires Can(s, a) && s.lock.Some?
    ensures !a.Register? && !a.Unregister? && !a.SendTask?
    ensures |Do(s, a).table| == |s.table| && (Do(s, a).lock == s.lock || Do(s, a).lock.None?)
  {
  }

  lemma LiveWasLive(s: State, a: Action, w: WaiterId)
    requires Inv(s) && Can(s, a) && w < |s.table| && w < |Do(s, a).table| && Do(s, a).table[w].fate.Live?
    ensures s.table[w].fate.Live?
  {
    if !s.table[w].fate.Live? { FateStays(s, a, w); }
  }

  lemma SweepKeepsReason(s: State, a: Action)
    requires Can(s, a) && s.lock.Some? && s.lock.value in s.readers && HoldsRegistry(s.readers[s.lock.value].pc)
    requires Do(s, a).lock == s.lock
    ensures var c := s.lock.value;
      && c in Do(s, a).readers && Do(s, a).readers[c].agentId == s.readers[c].agentId
      && (HoldsRegistry(Do(s, a).readers[c].pc) ==> Do(s, a).readers[c].pc.resume == s.readers[c].pc.resume)
  {
    if ActorOf(a) != Some(Runtime(s.lock.value)) { OtherReadersStay(s, a, s.lock.value); }
  }

  lemma {:induction false} ReasonRun(s: State, run: seq<Action>)
    requires Inv(s) && ReasonOk(s) && Exec(s, run).Some?
    ensures ReasonOk(Exec(s, run).value)
    decreases |run|
  {
    hide Inv, ReasonOk, Can, Do;
    if run != [] {
      StepKeeps(s, run[0]);
      ReasonStep(s, run[0]);
      ReasonRun(Do(s, run[0]), run[1..]);
    }
  }

  lemma ReachableReason(s: State)
    requires Reachable(s)
    ensures ReasonOk(s)
  {
    var run :| Exec(INITIAL, run) == Some(s);
    assert Inv(INITIAL);
    ReasonRun(INITIAL, run);
    hide Inv;
  }

  // ----- theorems -----

  // The error that a sweep sends says that the runtime was replaced if and only if the agent has
  // a runtime again, and otherwise that it is gone.
  lemma SweepTellsWhy(s: State, c: Conn)
    requires Reachable(s) && Can(s, FailPush(c))
    ensures var w := s.readers[c].pc.w;
      var t := Do(s, FailPush(c));
      && w < |s.table| == |t.table| && |t.table[w].sent| == |s.table[w].sent| + 1
      && var item, key := t.table[w].sent[|s.table[w].sent|], s.table[w].key;
         && item.synthetic
         && TellsOfSweep(item.event, key, if key.agentId in s.runtimes then REPLACED else DISCONNECTED)
  {
    ReachableInv(s);
    ReachableReason(s);
    ReaderFacts(s, c);
    hide Inv, Reachable;
  }

  // A chat is taken out by a sweep only when its connection is not the registered one any more.
  lemma SweptLostItsConnection(s: State, c: Conn, key: Key)
    requires Reachable(s) && Can(s, SweepOne(c, key))
    ensures var x := s.table[s.waiters[key]]; !IsRegistered(s, x.key.agentId, x.conn)
  {
    ReachableInv(s);
    ReachableReason(s);
    ReaderFacts(s, c);
    MapEntry(s, key);
    InMapIsLive(s, s.waiters[key]);
    hide Inv, Reachable;
  }
}

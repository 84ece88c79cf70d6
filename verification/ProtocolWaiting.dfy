/**
 Exactly when a browser that waits at an empty queue will never be written another response:
 nobody is delivering to it, and it is out of the map, or a sweep that cannot end keeps the
 registry's lock.
 */
module ProtocolWaiting {
  import opened Wrappers
  import opened Envelopes
  import opened Protocol
  import opened ProtocolInvariant
  import opened ProtocolDelivery
  import opened ProtocolProgress
  import opened ProtocolFrame
  import opened ProtocolStuck
  import opened ProtocolBound
  import opened ProtocolReuse

  // ----- a sweep that cannot end -----

  // Room for the sweep's error, and for the event of a delivery that holds the mutex.
  predicate HasRoomFor(s: State, v: WaiterId)
    requires v < |s.table|
  {
    var x := s.table[v];
    |x.sent| + (if x.holder.Some? && x.holder != s.lock then 2 else 1) <= x.taken + QUEUE_CAPACITY
  }

  // Its browser reads no more, and its queue has no room.
  predicate Blocks(s: State, v: WaiterId) {
    v < |s.table| && s.table[v].consumer.Leaving? && !HasRoomFor(s, v)
  }

  // A sweep has taken out such a waiter; or it is another agent's, and will come to one.
  ghost predicate Doomed(s: State, agentId: string) {
    s.lock.Some? && s.lock.value in s.readers &&
    var r := s.readers[s.lock.value];
    || (Waits(r.pc) && Blocks(s, r.pc.w))
    || (r.agentId != agentId && exists key :: key in s.waiters && key.agentId == r.agentId && Blocks(s, s.waiters[key]))
  }

  // ----- it does not end -----

  // The sweep is waiting to write to it, or may come to it.
  predicate Ahead(s: State, v: WaiterId)
    requires s.lock.Some? && s.lock.value in s.readers
  {
    v < |s.table| &&
    (s.table[v].fate.Live? || (Waits(s.readers[s.lock.value].pc) && s.readers[s.lock.value].pc.w == v))
  }

  lemma AheadIsOpen(s: State, v: WaiterId)
    requires Inv(s) && s.lock.Some? && s.lock.value in s.readers && Ahead(s, v)
    ensures !s.table[v].done
    ensures s.readers[s.lock.value].pc.FailClosing? ==> s.readers[s.lock.value].pc.w != v
  {
    ReaderFacts(s, s.lock.value);
    WaiterFacts(s, v);
    PlaceFacts(s.table[v], ContextOf(s, v));
    hide Inv, LocalOk, LinksOk;
  }

  // A waiter that blocks the sweep goes on to.
  lemma BlocksStays(s: State, a: Action, v: WaiterId)
    requires Inv(s) && s.lock.Some? && s.lock.value in s.readers && Ahead(s, v) && Blocks(s, v) && Can(s, a)
    requires Do(s, a).lock == s.lock
    ensures Blocks(Do(s, a), v)
  {
    LeavingWaits(s, a, v);
    ReadingStays(s, a, v);
    if FromElsewhere(s, a, v) {
      QueueStays(s, a, v);
    } else {
      BlocksAfterDelivery(s, a, v);
    }
    hide Can, Do, Inv;
  }

  lemma LeavingWaits(s: State, a: Action, v: WaiterId)
    requires Can(s, a) && s.lock.Some? && v < |s.table| && s.table[v].consumer.Leaving?
    ensures ActorOf(a) != Some(Browser(v))
  {
  }

  lemma BlocksAfterDelivery(s: State, a: Action, v: WaiterId)
    requires Inv(s) && s.lock.Some? && s.lock.value in s.readers && Ahead(s, v) && Blocks(s, v) && Can(s, a)
    requires Do(s, a).lock == s.lock && !FromElsewhere(s, a, v)
    ensures Blocks(Do(s, a), v)
  {
    ReaderFacts(s, ActorOf(a).value.c);
    ReaderFacts(s, s.lock.value);
    AheadIsOpen(s, v);
    hide Inv;
  }

  lemma LockIsKept(s: State, a: Action)
    requires Inv(s) && Can(s, a) && s.lock.Some? && !a.SweepEnd?
    ensures Do(s, a).lock == s.lock && s.lock.value in s.readers && s.lock.value in Do(s, a).readers
    ensures Do(s, a).readers[s.lock.value].agentId == s.readers[s.lock.value].agentId
  {
    LockerIsKnown(s);
    hide Inv;
  }

  lemma LockerIsKnown(s: State)
    requires Inv(s) && s.lock.Some?
    ensures s.lock.value in s.readers && ReaderOk(s, s.lock.value)
  {
    ReaderFacts(s, s.lock.value);
  }

  // What is in the map stays there, but for what the sweep takes out.
  lemma MapIsKept(s: State, a: Action, key: Key)
    requires Can(s, a) && s.lock.Some? && key in s.waiters && (a.SweepOne? ==> a.key != key)
    ensures key in Do(s, a).waiters && Do(s, a).waiters[key] == s.waiters[key]
  {
  }

  lemma WaitingSweepWaits(s: State, agentId: string, a: Action)
    requires Inv(s) && s.lock.Some? && s.lock.value in s.readers && Can(s, a)
    requires Waits(s.readers[s.lock.value].pc) && Blocks(s, s.readers[s.lock.value].pc.w)
    ensures Doomed(Do(s, a), agentId)
  {
    var c := s.lock.value;
    ReaderFacts(s, c);
    var v := s.readers[c].pc.w;
    AheadIsOpen(s, v);
    SweepIsHeldUp(s, a);
    LockIsKept(s, a);
    BlocksStays(s, a, v);
    if ActorOf(a) != Some(Runtime(c)) { OtherReadersStay(s, a, c); }
    hide Can, Do, Inv, Blocks;
  }

  lemma SweepIsHeldUp(s: State, a: Action)
    requires Inv(s) && s.lock.Some? && s.lock.value in s.readers && Can(s, a)
    requires Waits(s.readers[s.lock.value].pc) && Blocks(s, s.readers[s.lock.value].pc.w)
    requires !s.table[s.readers[s.lock.value].pc.w].done
    ensures !a.SweepEnd?
    ensures var c := s.lock.value;
      ActorOf(a) == Some(Runtime(c)) ==>
        c in Do(s, a).readers && Waits(Do(s, a).readers[c].pc) && Do(s, a).readers[c].pc.w == s.readers[c].pc.w
  {
    ReaderFacts(s, s.lock.value);
    if a.SweepEnd? { ReaderFacts(s, a.c); }
    hide Inv;
  }

  lemma ComingSweepComes(s: State, agentId: string, a: Action, key: Key)
    requires Inv(s) && s.lock.Some? && s.lock.value in s.readers && Can(s, a)
    requires s.readers[s.lock.value].agentId == key.agentId != agentId
    requires key in s.waiters && Blocks(s, s.waiters[key])
    ensures Doomed(Do(s, a), agentId)
  {
    var c, v := s.lock.value, s.waiters[key];
    MapEntry(s, key);
    assert Ahead(s, v);
    NotYetEnded(s, a, key);
    LockIsKept(s, a);
    BlocksStays(s, a, v);
    if a.SweepOne? && a.key == key { SweepTakes(s, a.c, key); } else { MapIsKept(s, a, key); }
    hide Can, Do, Inv, Blocks;
  }

  lemma NotYetEnded(s: State, a: Action, key: Key)
    requires Inv(s) && s.lock.Some? && s.lock.value in s.readers && Can(s, a)
    requires s.readers[s.lock.value].agentId == key.agentId && key in s.waiters
    ensures !a.SweepEnd? && (a.SweepOne? ==> a.c == s.lock.value)
  {
    if a.SweepEnd? || a.SweepOne? { ReaderFacts(s, a.c); }
    hide Inv;
  }

  lemma SweepTakes(s: State, c: Conn, key: Key)
    requires CanSweepOne(s, c, key)
    ensures c in DoSweepOne(s, c, key).readers
    ensures DoSweepOne(s, c, key).readers[c].pc == FailLocking(s.waiters[key], s.readers[c].pc.resume)
  {
  }

  lemma DoomedStays(s: State, agentId: string, a: Action)
    requires Inv(s) && Doomed(s, agentId) && Can(s, a)
    ensures Doomed(Do(s, a), agentId)
  {
    var r := s.readers[s.lock.value];
    if Waits(r.pc) && Blocks(s, r.pc.w) {
      WaitingSweepWaits(s, agentId, a);
    } else {
      var key :| key in s.waiters && key.agentId == r.agentId && Blocks(s, s.waiters[key]);
      ComingSweepComes(s, agentId, a, key);
    }
    hide Can, Do, Inv;
  }

  // ----- a browser that nobody will ever reach -----

  ghost predicate OutOfReach(s: State, w: WaiterId) {
    Waiting(s, w) && NobodyAt(s, w) && (!s.table[w].fate.Live? || Doomed(s, s.table[w].key.agentId))
  }

  // A doomed sweep does not come to a waiter of the other agent, or at all.
  lemma DoomedSweepSpares(s: State, a: Action, w: WaiterId)
    requires Inv(s) && w < |s.table| && s.table[w].fate.Live? && Doomed(s, s.table[w].key.agentId) && Can(s, a)
    ensures a.SweepOne? ==> s.waiters[a.key] != w
  {
    if a.SweepOne? {
      ReaderFacts(s, a.c);
      InMapIsLive(s, w);
    }
    hide Inv;
  }

  lemma NobodyComesLocked(s: State, a: Action, w: WaiterId)
    requires s.lock.Some? && NobodyAt(s, w) && Can(s, a) && (a.SweepOne? ==> s.waiters[a.key] != w)
    ensures NobodyAt(Do(s, a), w)
  {
    forall c ensures !IsAt(Do(s, a), c, w) {
      assert !IsAt(s, c, w);
      if c in s.readers && ActorOf(a) != Some(Runtime(c)) {
        OtherReadersStay(s, a, c);
      } else {
        NobodyComesByItself(s, a, c, w);
      }
    }
  }

  lemma NobodyComesByItself(s: State, a: Action, c: Conn, w: WaiterId)
    requires s.lock.Some? && !IsAt(s, c, w) && Can(s, a) && (a.SweepOne? ==> s.waiters[a.key] != w)
    requires c in s.readers ==> ActorOf(a) == Some(Runtime(c))
    ensures !IsAt(Do(s, a), c, w)
  {
  }

  lemma SparedStaysLive(s: State, a: Action, w: WaiterId)
    requires s.lock.Some? && Can(s, a) && w < |s.table| && (a.SweepOne? ==> s.waiters[a.key] != w)
    ensures w < |Do(s, a).table| && Do(s, a).table[w].fate == s.table[w].fate
  {
    if !a.SweepOne? { FateStaysLocked(s, a, w); }
  }

  lemma OutOfReachStays(s: State, a: Action, w: WaiterId)
    requires Inv(s) && OutOfReach(s, w) && Can(s, a)
    ensures OutOfReach(Do(s, a), w) && Do(s, a).table[w].written == s.table[w].written
  {
    if !s.table[w].fate.Live? {
      LeftWaitingStays(s, a, w);
    } else {
      WaitingBrowserDoesNothing(s, a, w);
      DoomedSweepSpares(s, a, w);
      NobodyComesLocked(s, a, w);
      ReadingStays(s, a, w);
      NobodyActsAt(s, a, w);
      QueueStays(s, a, w);
      NameStays(s, a, w);
      DoomedStays(s, s.table[w].key.agentId, a);
      SparedStaysLive(s, a, w);
    }
    hide Can, Do, Inv, NobodyAt, Doomed;
  }

  lemma {:induction false} OutOfReachForEver(s: State, w: WaiterId, run: seq<Action>)
    requires Inv(s) && OutOfReach(s, w) && Exec(s, run).Some?
    ensures OutOfReach(Exec(s, run).value, w)
    ensures Exec(s, run).value.table[w].written == s.table[w].written
    decreases |run|
  {
    hide Inv, NobodyAt, Doomed;
    if run != [] {
      OutOfReachStays(s, run[0], w);
      StepKeeps(s, run[0]);
      OutOfReachForEver(Do(s, run[0]), w, run[1..]);
    }
  }
}

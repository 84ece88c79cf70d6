/**
 SubprocessAdapter.Run (internal/claw/subprocess.go) as a step system: two goroutines read
 the child's pipes, a third waits for both and for the child, and all three send to one
 channel that the third closes.
 */
module Subprocess {
  import opened Wrappers
  import opened Claw

  const OUT_CAPACITY: nat := 32

  datatype Pipe = Stdout | Stderr

  // What came with the bytes of a Read: nothing, io.EOF, context.Canceled, another error.
  datatype ReadError = NoError | EndOfFile | Canceled | Failed(text: string)

  datatype StreamPc =
    | Reading
    | SendingChunk(chunk: string, err: ReadError)
    | Checking(err: ReadError)       // the chunk is sent, the error not looked at yet
    | SendingError(text: string)
    | Returned                       // wg.Done has been called

  datatype FinisherPc =
    | Waiting                        // in wg.Wait or cmd.Wait
    | SendingExit(event: Event)
    | Closing
    | Finished

  // History: who sent an event.
  datatype Sender = Opening | Reader(pipe: Pipe) | Finisher

  datatype Item = Item(sender: Sender, event: Event)

  // `chunks` and `failure` are history: the non-empty chunks read from the pipe, and the
  // read error that is to be reported.
  datatype Stream = Stream(pc: StreamPc, chunks: seq<string>, failure: Option<string>)

  datatype State = State(
    canceled: bool,
    closed: bool,
    sent: seq<Item>,       // the whole channel: its buffer is what lies at `taken` and beyond
    taken: nat,
    stdout: Stream,
    stderr: Stream,
    finisher: FinisherPc)

  // subprocess.go:22-56: the buffer is empty, so the first event always fits.
  const STARTED_STATE := State(
    false, false, [Item(Opening, STARTED)], 0,
    Stream(Reading, [], None), Stream(Reading, [], None), Waiting)

  datatype Action =
    | Cancel
    | Read(pipe: Pipe, chunk: string, err: ReadError)
    | SendChunk(pipe: Pipe)
    | Check(pipe: Pipe)
    | SendError(pipe: Pipe)
    | GiveUp(pipe: Pipe)
    | Wait(waitErr: Option<string>, exitCode: int)
    | SendExit
    | SkipExit
    | CloseOut
    | Receive

  function Of(s: State, p: Pipe): Stream {
    match p
    case Stdout => s.stdout
    case Stderr => s.stderr
  }

  function With(s: State, p: Pipe, x: Stream): State {
    match p
    case Stdout => s.(stdout := x)
    case Stderr => s.(stderr := x)
  }

  function Prefix(p: Pipe): string {
    match p
    case Stdout => ""
    case Stderr => "stderr: "
  }

  predicate HasRoom(s: State) {
    |s.sent| < s.taken + OUT_CAPACITY
  }

  // The sends, each a select between the channel and the context. A send to a closed
  // channel would be a panic, so it is possible here.
  predicate IsSend(a: Action) {
    a.SendChunk? || a.SendError? || a.SendExit?
  }

  predicate Can(s: State, a: Action) {
    match a
    case Cancel => true
    case Read(p, chunk, _) => Of(s, p).pc.Reading?
    case SendChunk(p) => Of(s, p).pc.SendingChunk? && HasRoom(s)
    case Check(p) => Of(s, p).pc.Checking?
    case SendError(p) => Of(s, p).pc.SendingError? && HasRoom(s)
    case GiveUp(p) => (Of(s, p).pc.SendingChunk? || Of(s, p).pc.SendingError?) && s.canceled
    case Wait(_, _) => s.finisher.Waiting? && s.stdout.pc.Returned? && s.stderr.pc.Returned?
    case SendExit => s.finisher.SendingExit? && HasRoom(s)
    case SkipExit => s.finisher.SendingExit? && s.canceled
    case CloseOut => s.finisher.Closing?
    case Receive => s.taken < |s.sent|
  }

  // subprocess.go:75-83.
  function DoRead(s: State, p: Pipe, chunk: string, err: ReadError): State {
    var x := Of(s, p);
    if chunk == "" then With(s, p, x.(pc := Checking(err)))
    else With(s, p, x.(pc := SendingChunk(chunk, err), chunks := x.chunks + [chunk]))
  }

  // subprocess.go:84-94, up to the inner select.
  function DoCheck(s: State, p: Pipe): State
    requires Of(s, p).pc.Checking?
  {
    var x := Of(s, p);
    match x.pc.err
    case NoError => With(s, p, x.(pc := Reading))
    case Failed(text) =>
      if s.canceled then With(s, p, x.(pc := Returned))
      else With(s, p, x.(pc := SendingError(text), failure := Some(text)))
    case _ => With(s, p, x.(pc := Returned))
  }

  function Send(s: State, sender: Sender, event: Event): State {
    s.(sent := s.sent + [Item(sender, event)])
  }

  // subprocess.go:103-121.
  function ExitEvent(waitErr: Option<string>, exitCode: int): Event {
    if waitErr.None? then DONE else Event(Error, "", waitErr, exitCode)
  }

  function Do(s: State, a: Action): State
    requires Can(s, a)
  {
    match a
    case Cancel => s.(canceled := true)
    case Read(p, chunk, err) => DoRead(s, p, chunk, err)
    case SendChunk(p) =>
      var x := Of(s, p);
      With(Send(s, Reader(p), DeltaOf(Prefix(p) + x.pc.chunk)), p, x.(pc := Checking(x.pc.err)))
    case Check(p) => DoCheck(s, p)
    case SendError(p) =>
      var x := Of(s, p);
      With(Send(s, Reader(p), ErrorOf(x.pc.text)), p, x.(pc := Returned))
    case GiveUp(p) => With(s, p, Of(s, p).(pc := Returned))
    case Wait(waitErr, exitCode) => s.(finisher := SendingExit(ExitEvent(waitErr, exitCode)))
    case SendExit => Send(s, Finisher, s.finisher.event).(finisher := Closing)
    case SkipExit => s.(finisher := Closing)
    case CloseOut => s.(finisher := Finished, closed := true)
    case Receive => s.(taken := s.taken + 1)
  }

  function Exec(s: State, run: seq<Action>): Option<State>
    decreases |run|
  {
    if run == [] then Some(s)
    else if Can(s, run[0]) then Exec(Do(s, run[0]), run[1..])
    else None
  }

  ghost predicate Reachable(s: State) {
    exists run :: Exec(STARTED_STATE, run) == Some(s)
  }

  // ----- what each goroutine has sent, and what it was to send -----

  function By(sent: seq<Item>, sender: Sender): seq<Event> {
    if sent == [] then []
    else
      var last := sent[|sent| - 1];
      By(sent[..|sent| - 1], sender) + (if last.sender == sender then [last.event] else [])
  }

  function Deltas(p: Pipe, chunks: seq<string>): (events: seq<Event>)
    ensures |events| == |chunks|
  {
    seq(|chunks|, i requires 0 <= i < |chunks| => DeltaOf(Prefix(p) + chunks[i]))
  }

  // One delta for each chunk read, in order, and then the read error, if any.
  function Due(p: Pipe, x: Stream): seq<Event> {
    Deltas(p, x.chunks) + (if x.failure.Some? then [ErrorOf(x.failure.value)] else [])
  }

  // What of this is still to be sent.
  function Pending(p: Pipe, x: Stream): seq<Event> {
    match x.pc
    case SendingChunk(chunk, _) => [DeltaOf(Prefix(p) + chunk)]
    case SendingError(text) => [ErrorOf(text)]
    case _ => []
  }

  lemma ByAppend(sent: seq<Item>, x: Item, sender: Sender)
    ensures By(sent + [x], sender) == By(sent, sender) + (if x.sender == sender then [x.event] else [])
  {
    assert (sent + [x])[..|sent|] == sent;
  }

  lemma DeltasAppend(p: Pipe, chunks: seq<string>, chunk: string)
    ensures Deltas(p, chunks + [chunk]) == Deltas(p, chunks) + [DeltaOf(Prefix(p) + chunk)]
  {
  }

  // ----- the invariant -----

  ghost predicate StreamOk(s: State, p: Pipe) {
    var x := Of(s, p);
    && (x.failure.Some? ==> x.pc.SendingError? || x.pc.Returned?)
    && (x.pc.SendingChunk? ==> |x.chunks| > 0 && x.chunks[|x.chunks| - 1] == x.pc.chunk)
    && (x.pc.SendingError? ==> x.failure == Some(x.pc.text))
    && (forall i :: 0 <= i < |x.chunks| ==> x.chunks[i] != "")
    && By(s.sent, Reader(p)) + Pending(p, x) <= Due(p, x)
    && (!x.pc.Returned? || !s.canceled ==> By(s.sent, Reader(p)) + Pending(p, x) == Due(p, x))
  }

  ghost predicate FinisherOk(s: State) {
    && (s.closed <==> s.finisher.Finished?)
    && (!s.finisher.Waiting? ==> s.stdout.pc.Returned? && s.stderr.pc.Returned?)
    && By(s.sent, Opening) == [STARTED] && |s.sent| > 0 && s.sent[0].sender.Opening?
    && |By(s.sent, Finisher)| <= 1
    && (By(s.sent, Finisher) != [] ==>
          (s.finisher.Closing? || s.finisher.Finished?) && s.sent[|s.sent| - 1].sender.Finisher?)
    && ((s.finisher.Closing? || s.finisher.Finished?) && !s.canceled ==> By(s.sent, Finisher) != [])
    && (s.finisher.SendingExit? ==> IsFinal(s.finisher.event))
    && (By(s.sent, Finisher) != [] ==> IsFinal(By(s.sent, Finisher)[0]))
  }

  ghost predicate Inv(s: State) {
    FinisherOk(s) && StreamOk(s, Stdout) && StreamOk(s, Stderr)
  }

  lemma AfterSend(s: State, sender: Sender, event: Event, other: Sender)
    ensures By(Send(s, sender, event).sent, other)
         == By(s.sent, other) + (if sender == other then [event] else [])
  {
    ByAppend(s.sent, Item(sender, event), other);
  }

  // What the action sends, if it sends.
  function Sends(s: State, a: Action): Option<(Sender, Event)>
    requires Can(s, a)
  {
    match a
    case SendChunk(p) => Some((Reader(p), DeltaOf(Prefix(p) + Of(s, p).pc.chunk)))
    case SendError(p) => Some((Reader(p), ErrorOf(Of(s, p).pc.text)))
    case SendExit => Some((Finisher, s.finisher.event))
    case _ => None
  }

  lemma SentBy(s: State, a: Action, other: Sender)
    requires Can(s, a)
    ensures var e := Sends(s, a);
      By(Do(s, a).sent, other)
      == By(s.sent, other) + (if e.Some? && e.value.0 == other then [e.value.1] else [])
  {
    if Sends(s, a).Some? { AfterSend(s, Sends(s, a).value.0, Sends(s, a).value.1, other); }
  }

  // A chunk that was read is due, and pending.
  lemma ReadStep(s: State, p: Pipe, chunk: string, err: ReadError)
    requires StreamOk(s, p) && Can(s, Read(p, chunk, err))
    ensures StreamOk(Do(s, Read(p, chunk, err)), p)
  {
    var x := Of(s, p);
    DeltasAppend(p, x.chunks, chunk);
    var y := Of(DoRead(s, p, chunk, err), p);
    hide By, Deltas;
    assert x.failure.None? && Due(p, x) == Deltas(p, x.chunks);
    assert chunk != "" ==> Due(p, y) == Due(p, x) + Pending(p, y);
    assert By(s.sent, Reader(p)) + [] == By(s.sent, Reader(p));
  }

  // What was pending is sent.
  lemma SendStep(s: State, a: Action, p: Pipe)
    requires StreamOk(s, p) && Can(s, a) && (a == SendChunk(p) || a == SendError(p))
    ensures StreamOk(Do(s, a), p)
  {
    SentPending(s, a, p);
    SendingOnlyMoves(s, a, p);
    hide Can, Do, By, Deltas;
    assert By(Do(s, a).sent, Reader(p)) + [] == By(Do(s, a).sent, Reader(p));
  }

  lemma SentPending(s: State, a: Action, p: Pipe)
    requires Can(s, a) && (a == SendChunk(p) || a == SendError(p))
    ensures By(Do(s, a).sent, Reader(p)) == By(s.sent, Reader(p)) + Pending(p, Of(s, p))
  {
    SentBy(s, a, Reader(p));
    hide By;
  }

  lemma SendingOnlyMoves(s: State, a: Action, p: Pipe)
    requires Can(s, a) && (a == SendChunk(p) || a == SendError(p))
    ensures var x, y := Of(s, p), Of(Do(s, a), p);
      && y.chunks == x.chunks && y.failure == x.failure && Do(s, a).canceled == s.canceled
      && y.pc == if a.SendChunk? then Checking(x.pc.err) else Returned
  {
  }

  // A read error becomes due, and pending, unless the context was cancelled.
  lemma CheckStep(s: State, p: Pipe)
    requires StreamOk(s, p) && Can(s, Check(p))
    ensures StreamOk(DoCheck(s, p), p)
  {
    var x, y := Of(s, p), Of(DoCheck(s, p), p);
    var mine := By(s.sent, Reader(p));
    assert DoCheck(s, p).sent == s.sent && DoCheck(s, p).canceled == s.canceled;
    assert Pending(p, x) == [] && x.failure.None?;
    assert mine + [] == mine && mine == Deltas(p, x.chunks);
    assert Due(p, y) == mine + Pending(p, y);
    assert y.chunks == x.chunks;
    hide By, Deltas, Due;
  }

  // Giving up leaves a gap only at the end.
  lemma GiveUpStep(s: State, p: Pipe)
    requires StreamOk(s, p) && Can(s, GiveUp(p))
    ensures StreamOk(Do(s, GiveUp(p)), p)
  {
    var x := Of(s, p);
    var mine := By(s.sent, Reader(p));
    var y := Of(Do(s, GiveUp(p)), p);
    assert Due(p, y) == Due(p, x) && Pending(p, y) == [];
    hide By, Deltas, Due;
    assert mine <= mine + Pending(p, x);
    assert mine + [] == mine;
  }

  lemma Unaffected(s: State, t: State, p: Pipe)
    requires StreamOk(s, p) && Of(t, p) == Of(s, p)
    requires By(t.sent, Reader(p)) == By(s.sent, Reader(p)) && (s.canceled ==> t.canceled)
    ensures StreamOk(t, p)
  {
    hide By, Due, Pending;
  }

  lemma StreamStep(s: State, a: Action, p: Pipe)
    requires FinisherOk(s) && StreamOk(s, p) && Can(s, a)
    ensures StreamOk(Do(s, a), p)
  {
    hide By, Deltas, StreamOk, FinisherOk;
    if a.Read? && a.pipe == p {
      ReadStep(s, p, a.chunk, a.err);
    } else if a == SendChunk(p) || a == SendError(p) {
      SendStep(s, a, p);
    } else if a == Check(p) {
      CheckStep(s, p);
    } else if a == GiveUp(p) {
      GiveUpStep(s, p);
    } else {
      ElsewhereStays(s, a, p);
      hide Can, Do;
      Unaffected(s, Do(s, a), p);
    }
  }

  // Any other step leaves the stream alone.
  lemma ElsewhereStays(s: State, a: Action, p: Pipe)
    requires Can(s, a) && !(a.Read? && a.pipe == p)
    requires a != SendChunk(p) && a != SendError(p) && a != Check(p) && a != GiveUp(p)
    ensures Of(Do(s, a), p) == Of(s, p) && (s.canceled ==> Do(s, a).canceled)
    ensures By(Do(s, a).sent, Reader(p)) == By(s.sent, Reader(p))
  {
    hide By;
    SentBy(s, a, Reader(p));
    SentByOther(s, a, p);
    NothingAdded(By(s.sent, Reader(p)));
    PipesAreApart(s, a, p);
    hide Do, Sends;
  }

  lemma SentByOther(s: State, a: Action, p: Pipe)
    requires Can(s, a) && a != SendChunk(p) && a != SendError(p)
    ensures Sends(s, a).Some? ==> Sends(s, a).value.0 != Reader(p)
  {
  }

  lemma NothingAdded(events: seq<Event>)
    ensures events + [] == events
  {
  }

  lemma PipesAreApart(s: State, a: Action, p: Pipe)
    requires Can(s, a) && !(a.Read? && a.pipe == p)
    requires a != SendChunk(p) && a != SendError(p) && a != Check(p) && a != GiveUp(p)
    ensures Of(Do(s, a), p) == Of(s, p) && (s.canceled ==> Do(s, a).canceled)
  {
  }

  lemma FinisherStep(s: State, a: Action)
    requires Inv(s) && Can(s, a)
    ensures FinisherOk(Do(s, a))
  {
    hide FinisherOk, StreamOk, Do;
    if a.Wait? || a.SendExit? || a.SkipExit? || a.CloseOut? {
      FinisherMoves(s, a);
    } else {
      FinisherIsElsewhere(s, a);
    }
  }

  lemma FinisherMoves(s: State, a: Action)
    requires FinisherOk(s) && Can(s, a) && (a.Wait? || a.SendExit? || a.SkipExit? || a.CloseOut?)
    ensures FinisherOk(Do(s, a))
  {
    hide By, FinisherOk, Do;
    if a.SendExit? { ExitSent(s); } else { NothingSent(s, a); }
  }

  lemma ExitSent(s: State)
    requires FinisherOk(s) && Can(s, SendExit)
    ensures FinisherOk(Do(s, SendExit))
  {
    hide By;
    SentBy(s, SendExit, Opening);
    SentBy(s, SendExit, Finisher);
    NothingAdded(By(s.sent, Opening));
    assert By(s.sent, Finisher) == [];
  }

  lemma NothingSent(s: State, a: Action)
    requires FinisherOk(s) && Can(s, a) && (a.Wait? || a.SkipExit? || a.CloseOut?)
    ensures FinisherOk(Do(s, a))
  {
    hide By;
    assert Do(s, a).sent == s.sent;
  }

  lemma FinisherIsElsewhere(s: State, a: Action)
    requires FinisherOk(s) && Can(s, a) && !(a.Wait? || a.SendExit? || a.SkipExit? || a.CloseOut?)
    ensures FinisherOk(Do(s, a))
  {
    hide By, Can, Do, FinisherOk;
    NotTheFinisher(s, a);
    SentBy(s, a, Opening);
    SentBy(s, a, Finisher);
    NothingAdded(By(s.sent, Opening));
    NothingAdded(By(s.sent, Finisher));
    SameFinisher(s, Do(s, a));
  }

  // A reader sends only before it returns, and stays returned.
  ghost predicate SameForFinisher(s: State, t: State) {
    && t.finisher == s.finisher && t.closed == s.closed && (s.canceled ==> t.canceled)
    && (s.stdout.pc.Returned? ==> t.stdout.pc.Returned?)
    && (s.stderr.pc.Returned? ==> t.stderr.pc.Returned?)
    && (t.sent == s.sent || (s.sent < t.sent && !(s.stdout.pc.Returned? && s.stderr.pc.Returned?)))
  }

  lemma NotTheFinisher(s: State, a: Action)
    requires Can(s, a) && !(a.Wait? || a.SendExit? || a.SkipExit? || a.CloseOut?)
    ensures SameForFinisher(s, Do(s, a))
    ensures Sends(s, a).Some? ==> Sends(s, a).value.0.Reader?
  {
  }

  lemma SameFinisher(s: State, t: State)
    requires FinisherOk(s) && SameForFinisher(s, t)
    requires By(t.sent, Opening) == By(s.sent, Opening) && By(t.sent, Finisher) == By(s.sent, Finisher)
    ensures FinisherOk(t)
  {
    hide By;
  }

  lemma StepKeeps(s: State, a: Action)
    requires Inv(s) && Can(s, a)
    ensures Inv(Do(s, a))
  {
    FinisherStep(s, a);
    StreamStep(s, a, Stdout);
    StreamStep(s, a, Stderr);
  }

  lemma {:induction false} RunKeeps(s: State, run: seq<Action>)
    requires Inv(s) && Exec(s, run).Some?
    ensures Inv(Exec(s, run).value)
    decreases |run|
  {
    if run != [] {
      StepKeeps(s, run[0]);
      RunKeeps(Do(s, run[0]), run[1..]);
    }
  }

  lemma ReachableInv(s: State)
    requires Reachable(s)
    ensures Inv(s)
  {
    var run :| Exec(STARTED_STATE, run) == Some(s);
    assert By([Item(Opening, STARTED)], Opening) == [STARTED];
    RunKeeps(STARTED_STATE, run);
  }

  // ----- theorems -----

  // In every schedule, cancelled or not, nothing is sent once the channel is closed.
  lemma NoSendAfterClose(s: State, a: Action)
    requires Reachable(s) && s.closed && IsSend(a)
    ensures !Can(s, a)
  {
    ReachableInv(s);
  }

  // A send waits exactly while 32 events have not been received.
  lemma ThirtyTwoWait(s: State, a: Action)
    requires Reachable(s) && IsSend(a)
    ensures |s.sent| - s.taken >= 32 ==> !Can(s, a)
    ensures |s.sent| - s.taken < 32 ==> (Can(s, a) <==>
      match a
      case SendChunk(p) => Of(s, p).pc.SendingChunk?
      case SendError(p) => Of(s, p).pc.SendingError?
      case _ => s.finisher.SendingExit?)
  {
  }

  // Every event but the first and the last was sent by a reader.
  ghost predicate ReadersInBetween(sent: seq<Item>) {
    && |sent| >= 2 && sent[0] == Item(Opening, STARTED) && sent[|sent| - 1].sender.Finisher?
    && forall i :: 0 < i < |sent| - 1 ==> sent[i].sender.Reader?
  }

  // Over all schedules without cancellation, the closed channel carried Started, then a
  // shuffle of the two readers' events that keeps each one's order, then one exit event;
  // and the deltas of a pipe are exactly the chunks that were read from it, so that no byte
  // is lost. Only a read error adds an event to a reader's deltas, as its last.
  lemma CompleteStream(s: State)
    requires Reachable(s) && s.closed && !s.canceled
    ensures ReadersInBetween(s.sent)
    ensures By(s.sent, Reader(Stdout)) == Due(Stdout, s.stdout)
    ensures By(s.sent, Reader(Stderr)) == Due(Stderr, s.stderr)
  {
    ReachableInv(s);
    OneSender(s.sent, Opening);
    OneSender(s.sent, Finisher);
    FirstIsStarted(s.sent);
  }

  // What the consumer gets in all.
  function Events(sent: seq<Item>): (events: seq<Event>)
    ensures |events| == |sent|
  {
    seq(|sent|, i requires 0 <= i < |sent| => sent[i].event)
  }

  lemma {:induction false} EventsBySender(sent: seq<Item>, i: nat)
    requires i < |sent|
    ensures sent[i].event in By(sent, sent[i].sender)
  {
    if i < |sent| - 1 { EventsBySender(sent[..|sent| - 1], i); }
  }

  // Without a read error the exit event is the only final one.
  lemma CompleteStreamEndsOnce(s: State)
    requires Reachable(s) && s.closed && !s.canceled
    requires s.stdout.failure.None? && s.stderr.failure.None?
    ensures EndsOnce(Events(s.sent))
  {
    CompleteStream(s);
    ReachableInv(s);
    var sent := s.sent;
    EventsBySender(sent, |sent| - 1);
    forall i | 0 <= i < |sent| - 1 ensures sent[i].event.typ.Started? || sent[i].event.typ.Delta? {
      EventsBySender(sent, i);
      if i > 0 { DueIsDeltas(sent[i].sender.pipe, Of(s, sent[i].sender.pipe)); }
    }
    hide By, Due, StreamOk;
  }

  lemma DueIsDeltas(p: Pipe, x: Stream)
    requires x.failure.None?
    ensures forall e :: e in Due(p, x) ==> e.typ.Delta?
  {
  }

  // A sender with one event has it at one place only.
  lemma {:induction false} OneSender(sent: seq<Item>, sender: Sender)
    ensures |By(sent, sender)| == 0 ==> forall i :: 0 <= i < |sent| ==> sent[i].sender != sender
    ensures |By(sent, sender)| == 1 ==>
      forall i, j :: 0 <= i < j < |sent| && sent[i].sender == sender ==> sent[j].sender != sender
  {
    if sent != [] {
      OneSender(sent[..|sent| - 1], sender);
    }
  }

  lemma {:induction false} FirstIsStarted(sent: seq<Item>)
    requires |sent| > 0 && sent[0].sender.Opening? && By(sent, Opening) == [STARTED]
    ensures sent[0] == Item(Opening, STARTED)
  {
    var front := sent[..|sent| - 1];
    if |sent| == 1 {
      assert By(front, Opening) == [];
      assert By(sent, Opening) == [sent[0].event];
    } else {
      assert front[0] == sent[0];
      OneSender(front, Opening);
      FirstIsStarted(front);
    }
  }

  // In every schedule, what a reader has sent is a part of that, without gap.
  lemma ReaderSendsInOrder(s: State, p: Pipe)
    requires Reachable(s)
    ensures By(s.sent, Reader(p)) <= Due(p, Of(s, p))
  {
    ReachableInv(s);
  }
}

/**
 What a child's output and its exit come to in the stream of SubprocessAdapter.Run
 (internal/claw/subprocess.go): told of a run's reads and of its Wait, not of the state.
 */
module SubprocessText {
  import opened Wrappers
  import opened Claw
  import opened Subprocess

  // ----- what a run reads -----

  predicate IsRead(a: Action, p: Pipe) {
    a.Read? && a.pipe == p
  }

  // The chunks read from a pipe, but for the empty ones.
  function ReadChunks(run: seq<Action>, p: Pipe): seq<string> {
    if run == [] then []
    else
      var a := run[|run| - 1];
      ReadChunks(run[..|run| - 1], p) + if IsRead(a, p) && a.chunk != "" then [a.chunk] else []
  }

  // The error that came with the last read.
  function LastError(run: seq<Action>, p: Pipe): ReadError {
    if run == [] then NoError
    else if IsRead(run[|run| - 1], p) then run[|run| - 1].err
    else LastError(run[..|run| - 1], p)
  }

  datatype Exit = Exit(waitErr: Option<string>, exitCode: int)

  // How the child exited, once it was waited for.
  function ExitRead(run: seq<Action>): Option<Exit> {
    if run == [] then None
    else
      var a := run[|run| - 1];
      if a.Wait? then Some(Exit(a.waitErr, a.exitCode)) else ExitRead(run[..|run| - 1])
  }

  ghost predicate TellsExit(e: Event, exit: Option<Exit>) {
    exit.Some? && e.text == "" &&
    if exit.value.waitErr.None? then e.typ.Done? && e.err.None? && e.exitCode == 0
    else e.typ.Error? && e.err == exit.value.waitErr && e.exitCode == exit.value.exitCode
  }

  // ----- the state keeps it -----

  ghost predicate ErrorOk(x: Stream, last: ReadError, canceled: bool) {
    match x.pc
    case Reading => x.failure.None? && last.NoError?
    case SendingChunk(_, err) => x.failure.None? && err == last
    case Checking(err) => x.failure.None? && err == last
    case SendingError(text) => x.failure == Some(text) && last == Failed(text)
    case Returned =>
      && (x.failure.Some? ==> last == Failed(x.failure.value))
      && (!canceled ==> !last.NoError? && (last.Failed? ==> x.failure == Some(last.text)))
  }

  ghost predicate StreamTold(s: State, past: seq<Action>, p: Pipe) {
    && Of(s, p).chunks == ReadChunks(past, p)
    && ErrorOk(Of(s, p), LastError(past, p), s.canceled)
  }

  ghost predicate ExitTold(s: State, past: seq<Action>) {
    && (s.finisher.Waiting? ==> By(s.sent, Finisher) == [])
    && (s.finisher.SendingExit? ==> TellsExit(s.finisher.event, ExitRead(past)) && By(s.sent, Finisher) == [])
    && (forall e :: e in By(s.sent, Finisher) ==> TellsExit(e, ExitRead(past)))
  }

  lemma OneMoreAction(past: seq<Action>, a: Action, p: Pipe)
    ensures ReadChunks(past + [a], p)
         == ReadChunks(past, p) + if IsRead(a, p) && a.chunk != "" then [a.chunk] else []
    ensures LastError(past + [a], p) == if IsRead(a, p) then a.err else LastError(past, p)
    ensures ExitRead(past + [a]) == if a.Wait? then Some(Exit(a.waitErr, a.exitCode)) else ExitRead(past)
  {
    assert (past + [a])[..|past|] == past;
  }

  lemma StreamStepTells(s: State, past: seq<Action>, a: Action, p: Pipe)
    requires StreamTold(s, past, p) && Can(s, a)
    ensures StreamTold(Do(s, a), past + [a], p)
  {
    OneMoreAction(past, a, p);
    if IsRead(a, p) || a == SendChunk(p) || a == SendError(p) || a == Check(p) || a == GiveUp(p) {
      OwnStepTells(s, past, a, p);
    } else {
      SameStream(s, a, p);
      hide Can, Do, ReadChunks, LastError;
      assert ReadChunks(past, p) + [] == ReadChunks(past, p);
    }
  }

  lemma SameStream(s: State, a: Action, p: Pipe)
    requires Can(s, a) && !IsRead(a, p) && a != SendChunk(p) && a != SendError(p) && a != Check(p) && a != GiveUp(p)
    ensures Of(Do(s, a), p) == Of(s, p) && (s.canceled ==> Do(s, a).canceled)
  {
    PipesAreApart(s, a, p);
  }

  lemma OwnStepTells(s: State, past: seq<Action>, a: Action, p: Pipe)
    requires StreamTold(s, past, p) && Can(s, a)
    requires IsRead(a, p) || a == SendChunk(p) || a == SendError(p) || a == Check(p) || a == GiveUp(p)
    ensures StreamTold(Do(s, a), past + [a], p)
  {
    OneMoreAction(past, a, p);
    hide ReadChunks, LastError;
    assert ReadChunks(past, p) + [] == ReadChunks(past, p);
    assert Do(s, a).canceled == s.canceled;
  }

  lemma ExitStepTells(s: State, past: seq<Action>, a: Action)
    requires ExitTold(s, past) && Can(s, a)
    ensures ExitTold(Do(s, a), past + [a])
  {
    OneMoreAction(past, a, Stdout);
    hide By, ExitRead, Can, Do, ExitTold;
    if a.Wait? || a.SendExit? || a.SkipExit? || a.CloseOut? {
      FinisherTells(s, past, a);
    } else {
      FinisherStays(s, a);
      SameExit(s, Do(s, a), past, past + [a]);
    }
  }

  lemma SameExit(s: State, t: State, past: seq<Action>, more: seq<Action>)
    requires ExitTold(s, past) && t.finisher == s.finisher && By(t.sent, Finisher) == By(s.sent, Finisher)
    requires ExitRead(more) == ExitRead(past)
    ensures ExitTold(t, more)
  {
    hide By, ExitRead, TellsExit;
  }

  lemma FinisherStays(s: State, a: Action)
    requires Can(s, a) && !a.Wait? && !a.SendExit? && !a.SkipExit? && !a.CloseOut?
    ensures Do(s, a).finisher == s.finisher && By(Do(s, a).sent, Finisher) == By(s.sent, Finisher)
  {
    SentBy(s, a, Finisher);
    hide By;
    assert By(s.sent, Finisher) + [] == By(s.sent, Finisher);
  }

  lemma FinisherTells(s: State, past: seq<Action>, a: Action)
    requires ExitTold(s, past) && Can(s, a) && (a.Wait? || a.SendExit? || a.SkipExit? || a.CloseOut?)
    ensures ExitTold(Do(s, a), past + [a])
  {
    hide By, ExitRead;
    OneMoreAction(past, a, Stdout);
    if a.SendExit? {
      ExitIsSent(s, past, past + [a]);
    } else if a.Wait? {
      assert Do(s, a).sent == s.sent;
      hide ReadChunks, LastError;
    } else {
      assert Do(s, a).sent == s.sent && ExitRead(past + [a]) == ExitRead(past);
      hide TellsExit, ReadChunks, LastError;
    }
  }

  lemma ExitIsSent(s: State, past: seq<Action>, more: seq<Action>)
    requires ExitTold(s, past) && Can(s, SendExit) && ExitRead(more) == ExitRead(past)
    ensures ExitTold(Do(s, SendExit), more)
  {
    SentBy(s, SendExit, Finisher);
    hide By, ExitRead, TellsExit;
    assert [] + [s.finisher.event] == [s.finisher.event];
  }

  lemma {:induction false} RunTells(s: State, past: seq<Action>, run: seq<Action>)
    requires StreamTold(s, past, Stdout) && StreamTold(s, past, Stderr) && ExitTold(s, past)
    requires Exec(s, run).Some?
    ensures var t := Exec(s, run).value;
      StreamTold(t, past + run, Stdout) && StreamTold(t, past + run, Stderr) && ExitTold(t, past + run)
    decreases |run|
  {
    hide StreamTold, ExitTold, Can, Do;
    if run == [] {
      assert past + run == past;
    } else {
      StreamStepTells(s, past, run[0], Stdout);
      StreamStepTells(s, past, run[0], Stderr);
      ExitStepTells(s, past, run[0]);
      RunTells(Do(s, run[0]), past + [run[0]], run[1..]);
      assert past + [run[0]] + run[1..] == past + run;
    }
  }

  lemma ReachedTells(run: seq<Action>, s: State)
    requires Exec(STARTED_STATE, run) == Some(s)
    ensures StreamTold(s, run, Stdout) && StreamTold(s, run, Stderr) && ExitTold(s, run) && Reachable(s)
  {
    assert By([Item(Opening, STARTED)][..0], Finisher) == [];
    assert By([Item(Opening, STARTED)], Finisher) == [];
    RunTells(STARTED_STATE, [], run);
    assert [] + run == run;
  }

  // ----- theorems -----

  // The chunks, each behind the prefix.
  function Joined(prefix: string, chunks: seq<string>): string {
    if chunks == [] then "" else Joined(prefix, chunks[..|chunks| - 1]) + prefix + chunks[|chunks| - 1]
  }

  function PrefixOf(p: Pipe): string {
    if p.Stdout? then "" else "stderr: "
  }

  lemma {:induction false} DeltasAreJoined(p: Pipe, chunks: seq<string>)
    ensures Shown(Deltas(p, chunks)) == Joined(PrefixOf(p), chunks)
  {
    if chunks != [] {
      var front := chunks[..|chunks| - 1];
      DeltasAreJoined(p, front);
      assert Deltas(p, chunks)[..|chunks| - 1] == Deltas(p, front);
    }
  }

  lemma DueIsJoined(p: Pipe, x: Stream)
    ensures Shown(Due(p, x)) == Joined(PrefixOf(p), x.chunks)
  {
    DeltasAreJoined(p, x.chunks);
    hide Deltas, Joined;
    if x.failure.Some? {
      ShownAppend(Deltas(p, x.chunks), [ErrorOf(x.failure.value)]);
      ShownOne(ErrorOf(x.failure.value));
    } else {
      assert Deltas(p, x.chunks) + [] == Deltas(p, x.chunks);
    }
  }

  // When a run that was not cancelled is over: the deltas of a pipe, put together, are all that
  // was read from it, each chunk from stderr behind its prefix; a read error follows them if and
  // only if the last read failed with one; and the last event of all tells how the child exited.
  lemma OutputIsConserved(run: seq<Action>, s: State, p: Pipe)
    requires Exec(STARTED_STATE, run) == Some(s) && s.closed && !s.canceled
    ensures var events := By(s.sent, Reader(p));
      && Shown(events) == Joined(PrefixOf(p), ReadChunks(run, p))
      && (forall e :: e in events && !e.typ.Delta? ==>
            e.typ.Error? && e.err.Some? && e.exitCode == 0 && LastError(run, p) == Failed(e.err.value))
      && (LastError(run, p).Failed? ==> events != [] && events[|events| - 1].err == Some(LastError(run, p).text))
    ensures s.sent != [] && TellsExit(s.sent[|s.sent| - 1].event, ExitRead(run))
  {
    hide By, Shown, Joined, ReadChunks, LastError, ExitRead, TellsExit, Reachable, ReadersInBetween;
    ReachedTells(run, s);
    CompleteStream(s);
    DueIsJoined(p, Of(s, p));
    ReturnedAtTheEnd(s, p);
    ErrorIsDue(s, p, LastError(run, p));
    LastIsExit(run, s);
  }

  lemma ReturnedAtTheEnd(s: State, p: Pipe)
    requires Reachable(s) && s.closed
    ensures Of(s, p).pc.Returned?
  {
    ReachableInv(s);
  }

  lemma ErrorIsDue(s: State, p: Pipe, last: ReadError)
    requires ErrorOk(Of(s, p), last, false) && Of(s, p).pc.Returned?
    ensures var events := Due(p, Of(s, p));
      && (forall e :: e in events && !e.typ.Delta? ==>
            e.typ.Error? && e.err.Some? && e.exitCode == 0 && last == Failed(e.err.value))
      && (last.Failed? ==> events != [] && events[|events| - 1].err == Some(last.text))
  {
  }

  lemma LastIsExit(run: seq<Action>, s: State)
    requires ReadersInBetween(s.sent) && ExitTold(s, run)
    ensures s.sent != [] && TellsExit(s.sent[|s.sent| - 1].event, ExitRead(run))
  {
    EventsBySender(s.sent, |s.sent| - 1);
    hide By, ExitRead, TellsExit;
  }

  // So what a child prints is what the stream says, if it prints nothing to stderr.
  lemma StdoutIsShown(run: seq<Action>, s: State)
    requires Exec(STARTED_STATE, run) == Some(s) && s.closed && !s.canceled
    requires ReadChunks(run, Stderr) == []
    ensures Shown(Events(s.sent)) == Joined("", ReadChunks(run, Stdout))
  {
    ReachedTells(run, s);
    CompleteStream(s);
    OutputIsConserved(run, s, Stdout);
    forall i | 0 <= i < |s.sent| && s.sent[i].event.typ.Delta? ensures s.sent[i].sender == Reader(Stdout) {
      EventsBySender(s.sent, i);
      NoDeltaBut(run, s, i);
    }
    OnlyOneSpeaks(s.sent, Reader(Stdout));
    hide By, Shown, Joined, ReadChunks;
  }

  lemma NoDeltaBut(run: seq<Action>, s: State, i: nat)
    requires StreamTold(s, run, Stderr) && ExitTold(s, run) && ReadChunks(run, Stderr) == []
    requires ReadersInBetween(s.sent) && By(s.sent, Reader(Stderr)) == Due(Stderr, s.stderr)
    requires i < |s.sent| && s.sent[i].event in By(s.sent, s.sent[i].sender) && s.sent[i].event.typ.Delta?
    ensures s.sent[i].sender == Reader(Stdout)
  {
    hide By, ReadChunks, LastError, ExitRead;
    SilentIsDue(s.stderr);
    assert forall e :: e in By(s.sent, Finisher) ==> !e.typ.Delta?;
    assert forall e :: e in By(s.sent, Reader(Stderr)) ==> !e.typ.Delta?;
    var x := s.sent[i];
    assert x.sender == Reader(Stderr) ==> x.event in By(s.sent, Reader(Stderr));
    assert x.sender == Finisher ==> x.event in By(s.sent, Finisher);
    assert x.sender.Opening? ==> i == 0;
    assert x.sender.Reader? ==> x.sender in {Reader(Stdout), Reader(Stderr)};
  }

  lemma SilentIsDue(x: Stream)
    requires x.chunks == []
    ensures forall e :: e in Due(Stderr, x) ==> !e.typ.Delta?
  {
  }

  lemma {:induction false} OnlyOneSpeaks(sent: seq<Item>, sender: Sender)
    requires forall i :: 0 <= i < |sent| && sent[i].event.typ.Delta? ==> sent[i].sender == sender
    ensures Shown(Events(sent)) == Shown(By(sent, sender))
  {
    if sent != [] {
      var front, last := sent[..|sent| - 1], sent[|sent| - 1];
      OnlyOneSpeaks(front, sender);
      assert Events(sent)[..|sent| - 1] == Events(front);
      ShownOne(last.event);
      ShownAppend(By(front, sender), if last.sender == sender then [last.event] else []);
      assert By(front, sender) + [] == By(front, sender);
    }
  }
}

/**
 The runtime's task loop (cmd/shclop-runtime/main.go): from the events of an adapter to
 the envelopes written to the gateway connection.
 */
module TaskLoop {
  import opened Wrappers
  import opened Envelopes
  import Claw

  // What calling an adapter came to: an error at once, or what its channel carried
  // until it was closed.
  datatype Outcome =
    | StartFails(message: string)
    | Stream(events: seq<Claw.Event>)

  ghost predicate EchoesTask(e: Envelope, task: Envelope) {
    e.agentId == task.agentId && e.sessionId == task.sessionId && e.messageId == task.messageId
  }

  function For(task: Envelope, number: int, typ: MessageType, payload: Payload): Envelope {
    Envelope(typ, task.agentId, task.sessionId, task.messageId, number, payload)
  }

  // main.go:120-146.
  function ToEnvelope(event: Claw.Event, task: Envelope, number: int): (e: Envelope)
    ensures EchoesTask(e, task) && e.number == number
    ensures IsTerminal(e) <==> !event.typ.Started? && !event.typ.Delta?
  {
    match event.typ
    case Started => For(task, number, Started, NO_PAYLOAD)
    case Delta => For(task, number, Delta, Payload(Some(event.text), None))
    case Done => For(task, number, Done, NO_PAYLOAD)
    case Error =>
      For(task, number, Error,
          Payload(if event.err.Some? then event.err else Some(event.text),
                  if event.exitCode != 0 then Some(event.exitCode) else None))
    case Unknown(name) =>
      For(task, number, Error, Payload(Some("unknown claw event type: " + name), None))
  }

  const NO_TERMINAL := Claw.ErrorText("claw adapter ended without terminal event")

  // ----- what a task should send -----

  // Every event of the adapter, translated and numbered from 1.
  function Translated(events: seq<Claw.Event>, task: Envelope): (all: seq<Envelope>)
    ensures |all| == |events|
  {
    seq(|events|, i requires 0 <= i < |events| => ToEnvelope(events[i], task, i + 1))
  }

  // The translated events up to the first terminal one, or all of them and an error.
  function TaskEnvelopes(task: Envelope, outcome: Outcome): seq<Envelope> {
    match outcome
    case StartFails(message) => [ToEnvelope(Claw.ErrorOf(message), task, 1)]
    case Stream(events) =>
      var all := Translated(events, task);
      if NoTerminal(all) then all + [ToEnvelope(NO_TERMINAL, task, |events| + 1)]
      else CutAtTerminal(all)
  }

  // ----- the loop -----

  // main.go:63-96 for one task. writeOk(i) tells whether the i-th write succeeds; a failed
  // write ends the process.
  method RunTask(task: Envelope, outcome: Outcome, writeOk: nat -> bool)
    returns (written: seq<Envelope>, exited: bool)
    ensures !exited ==> written == TaskEnvelopes(task, outcome)
    ensures exited ==> written < TaskEnvelopes(task, outcome) && !writeOk(|written|)
    ensures forall i :: 0 <= i < |written| ==> writeOk(i)
  {
    if outcome.StartFails? {
      exited := !writeOk(0);
      written := if exited then [] else [ToEnvelope(Claw.ErrorOf(outcome.message), task, 1)];
      return;
    }
    var terminal;
    written, exited, terminal := ForwardEvents(task, outcome.events, writeOk);
    if !exited && !terminal {
      if writeOk(|written|) {
        written := written + [ToEnvelope(NO_TERMINAL, task, |written| + 1)];
      } else {
        exited := true;
      }
    }
  }

  // main.go:75-88: the range loop over the adapter's channel.
  method ForwardEvents(task: Envelope, events: seq<Claw.Event>, writeOk: nat -> bool)
    returns (written: seq<Envelope>, exited: bool, terminal: bool)
    ensures exited ==> written < TaskEnvelopes(task, Stream(events)) && !writeOk(|written|)
    ensures terminal ==> written == TaskEnvelopes(task, Stream(events)) && !exited
    ensures !exited && !terminal ==>
      written == Translated(events, task) && NoTerminal(Translated(events, task))
    ensures forall i :: 0 <= i < |written| ==> writeOk(i)
  {
    hide ToEnvelope, CutAtTerminal, IsTerminal;
    written, exited, terminal := [], false, false;
    ghost var all := Translated(events, task);
    CutIsPrefix(all);
    var number := 1;
    for i := 0 to |events|
      invariant number == i + 1 && !exited && !terminal
      invariant written == all[..i] && NoTerminal(written)
      invariant forall k :: 0 <= k < |written| ==> writeOk(k)
    {
      var envelope := ToEnvelope(events[i], task, number);
      number := number + 1;
      if !writeOk(i) {
        OpenPrefixIsProper(written, all, ToEnvelope(NO_TERMINAL, task, |events| + 1));
        exited := true;
        return;
      }
      written := written + [envelope];
      if IsTerminal(envelope) {
        terminal := true;
        PrefixWithTerminalIsCut(written, all);
        return;
      }
    }
  }

  lemma OpenPrefixIsProper(p: seq<Envelope>, all: seq<Envelope>, last: Envelope)
    requires p < all && NoTerminal(p)
    ensures p < all + [last]
    ensures !NoTerminal(all) ==> p < CutAtTerminal(all)
  {
    OpenPrefixWithinCut(p, all);
    CutIsPrefix(all);
    if !NoTerminal(all) {
      assert |p| == |CutAtTerminal(all)| ==> p == CutAtTerminal(all);
    }
  }

  // ----- what it promises -----

  // Whatever the adapter did, the envelopes of a task are numbered 1..n, echo its ids, and
  // contain exactly one terminal envelope, the last.
  lemma TaskEndsExactlyOnce(task: Envelope, outcome: Outcome)
    ensures var sent := TaskEnvelopes(task, outcome);
      && EndsWithItsTerminal(sent)
      && forall i :: 0 <= i < |sent| ==> sent[i].number == i + 1 && EchoesTask(sent[i], task)
  {
    hide ToEnvelope;
    if outcome.Stream? {
      CutIsPrefix(Translated(outcome.events, task));
    }
  }

  // No event of the adapter is dropped before the first terminal one, and none is altered.
  lemma TaskForwardsEveryEvent(task: Envelope, events: seq<Claw.Event>, k: nat)
    requires k < |events|
    requires forall i :: 0 <= i < k ==> events[i].typ.Started? || events[i].typ.Delta?
    ensures var sent := TaskEnvelopes(task, Stream(events));
      k < |sent| && sent[k] == ToEnvelope(events[k], task, k + 1)
  {
    var all := Translated(events, task);
    CutIsPrefix(all);
    forall i | 0 <= i < k ensures !IsTerminal(all[i]) {
    }
    assert NoTerminal(all[..k]);
    if !NoTerminal(all) { OpenPrefixIsProper(all[..k], all, all[k]); }
  }

  // ----- what the envelopes say -----

  predicate Streams(e: Claw.Event) {
    e.typ.Started? || e.typ.Delta?
  }

  // The events before the first final one.
  function Heard(events: seq<Claw.Event>): seq<Claw.Event> {
    if events == [] || !Streams(events[0]) then [] else [events[0]] + Heard(events[1..])
  }

  lemma {:induction false} HeardIs(events: seq<Claw.Event>)
    ensures Heard(events) <= events
    ensures forall i :: 0 <= i < |Heard(events)| ==> Streams(events[i])
    ensures |Heard(events)| < |events| ==> !Streams(events[|Heard(events)|])
  {
    if events != [] && Streams(events[0]) {
      HeardIs(events[1..]);
      assert forall i :: 0 < i < |Heard(events)| ==> events[i] == events[1..][i - 1];
    }
  }

  lemma OneEnvelopeEach(task: Envelope, events: seq<Claw.Event>)
    ensures |TaskEnvelopes(task, Stream(events))| == |Heard(events)| + 1
  {
    var k := |Heard(events)|;
    var sent := TaskEnvelopes(task, Stream(events));
    HeardIs(events);
    TaskEndsExactlyOnce(task, Stream(events));
    if k < |events| {
      TaskForwardsEveryEvent(task, events, k);
      assert IsTerminal(sent[k]);
    } else {
      forall i | 0 <= i < k ensures !IsTerminal(Translated(events, task)[i]) {
        assert Streams(events[i]);
      }
    }
    hide CutAtTerminal, ToEnvelope, Heard;
  }

  // Started and Delta events keep their kind, and a delta its text; nothing else is added.
  lemma StreamedIsTold(task: Envelope, events: seq<Claw.Event>, i: nat)
    requires i < |Heard(events)|
    ensures var sent := TaskEnvelopes(task, Stream(events));
      && i < |sent| && i < |events|
      && (events[i].typ.Started? ==> sent[i].typ.Started? && sent[i].payload == NO_PAYLOAD)
      && (events[i].typ.Delta? ==> sent[i].typ.Delta? && sent[i].payload == Payload(Some(events[i].text), None))
  {
    HeardIs(events);
    TaskForwardsEveryEvent(task, events, i);
    assert Streams(events[i]);
    hide TaskEnvelopes, Heard;
  }

  // That the adapter is done; its error, or else its text, and the exit code if that is not 0;
  // or what was wrong with its stream.
  ghost predicate TellsEnd(last: Envelope, e: Claw.Event) {
    match e.typ
    case Done => last.typ.Done? && last.payload == NO_PAYLOAD
    case Unknown(name) => last.typ.Error? && last.payload == Payload(Some("unknown claw event type: " + name), None)
    case _ =>
      && last.typ.Error?
      && last.payload.text == Some(if e.err.Some? then e.err.value else e.text)
      && last.payload.exitCode == if e.exitCode == 0 then None else Some(e.exitCode)
  }

  // The last envelope tells how the adapter ended, or that it ended without saying how.
  lemma EndIsTold(task: Envelope, events: seq<Claw.Event>)
    ensures var sent, k := TaskEnvelopes(task, Stream(events)), |Heard(events)|;
      && |sent| == k + 1 && k <= |events|
      && (k < |events| ==> TellsEnd(sent[k], events[k]))
      && (k == |events| ==> sent[k].typ.Error?)
      && (k == |events| ==> sent[k].payload == Payload(Some("claw adapter ended without terminal event"), None))
  {
    var k := |Heard(events)|;
    HeardIs(events);
    OneEnvelopeEach(task, events);
    if k < |events| {
      TaskForwardsEveryEvent(task, events, k);
      assert !Streams(events[k]);
    } else {
      forall i | 0 <= i < k ensures !IsTerminal(Translated(events, task)[i]) {
        assert Streams(events[i]);
      }
    }
    hide Heard, CutAtTerminal;
  }

  // An adapter that could not be started is reported with what it said.
  lemma FailureIsTold(task: Envelope, message: string)
    ensures var sent := TaskEnvelopes(task, StartFails(message));
      |sent| == 1 && sent[0].typ.Error? && sent[0].payload == Payload(Some(message), None)
  {
  }

  // The texts of the delta envelopes, one after the other.
  function DeltaText(sent: seq<Envelope>): string {
    if sent == [] then ""
    else
      var last := sent[|sent| - 1];
      DeltaText(sent[..|sent| - 1]) + if last.typ.Delta? then last.payload.text.GetOr("") else ""
  }

  lemma {:induction false} TextSoFar(task: Envelope, events: seq<Claw.Event>, k: nat)
    requires k <= |Heard(events)|
    ensures k <= |events| && k <= |TaskEnvelopes(task, Stream(events))|
    ensures DeltaText(TaskEnvelopes(task, Stream(events))[..k]) == Claw.Shown(events[..k])
  {
    HeardIs(events);
    OneEnvelopeEach(task, events);
    var sent := TaskEnvelopes(task, Stream(events));
    hide TaskEnvelopes, Heard;
    if k > 0 {
      TextSoFar(task, events, k - 1);
      StreamedIsTold(task, events, k - 1);
      assert Streams(events[k - 1]);
      assert sent[..k][..k - 1] == sent[..k - 1] && events[..k][..k - 1] == events[..k - 1];
    }
  }

  // No character of the answer is lost, added or moved: the deltas of a task, put together, are
  // the adapter's up to its first final event, put together.
  lemma TextIsConserved(task: Envelope, events: seq<Claw.Event>)
    ensures DeltaText(TaskEnvelopes(task, Stream(events))) == Claw.Shown(Heard(events))
  {
    var sent, k := TaskEnvelopes(task, Stream(events)), |Heard(events)|;
    TextSoFar(task, events, k);
    HeardIs(events);
    EndIsTold(task, events);
    if k < |events| { assert !Streams(events[k]); }
    assert Heard(events) == events[..k];
    assert sent[..|sent| - 1] == sent[..k];
    hide TaskEnvelopes, Heard;
  }
}

/**
 The messages that travel between a runtime, the gateway and a browser
 (internal/gateway/envelope.go), and what makes one of them final.
 */
module Envelopes {
  import opened Wrappers

  // The `type` field. `Other` stands for every string that has no meaning of its own.
  datatype MessageType = TaskRun | Started | Delta | Done | Error | Other(name: string)

  // The payload keys the code reads or writes: "text" and "exit_code".
  datatype Payload = Payload(text: Option<string>, exitCode: Option<int>)

  const NO_PAYLOAD := Payload(None, None)

  datatype Envelope = Envelope(
    typ: MessageType,
    agentId: string,
    sessionId: string,
    messageId: string,
    number: int,
    payload: Payload)

  predicate IsTerminal(e: Envelope) {
    e.typ.Done? || e.typ.Error?
  }

  predicate NoTerminal(events: seq<Envelope>) {
    forall i :: 0 <= i < |events| ==> !IsTerminal(events[i])
  }

  predicate NoneBeforeLast(events: seq<Envelope>) {
    forall i :: 0 <= i < |events| - 1 ==> !IsTerminal(events[i])
  }

  // Exactly one terminal event, and it is the last one.
  predicate EndsWithItsTerminal(events: seq<Envelope>) {
    |events| > 0 && IsTerminal(events[|events| - 1]) && NoneBeforeLast(events)
  }

  // Everything up to and including the first terminal event.
  function CutAtTerminal(events: seq<Envelope>): seq<Envelope> {
    if events == [] then []
    else if IsTerminal(events[0]) then [events[0]]
    else [events[0]] + CutAtTerminal(events[1..])
  }

  // The cut is the longest prefix with at most one terminal event, at its end.
  lemma {:induction false} CutIsPrefix(events: seq<Envelope>)
    ensures CutAtTerminal(events) <= events
    ensures NoTerminal(events) ==> CutAtTerminal(events) == events
    ensures !NoTerminal(events) ==> EndsWithItsTerminal(CutAtTerminal(events))
  {
    if events != [] && !IsTerminal(events[0]) {
      var rest := events[1..];
      CutIsPrefix(rest);
      assert events == [events[0]] + rest;
      assert NoTerminal(events) <==> NoTerminal(rest) by {
        assert forall i :: 0 <= i < |rest| ==> rest[i] == events[i + 1];
        assert forall i :: 0 < i < |events| ==> events[i] == rest[i - 1];
      }
    }
  }

  // A prefix that ends with its first terminal event is the cut.
  lemma {:induction false} PrefixWithTerminalIsCut(p: seq<Envelope>, events: seq<Envelope>)
    requires p <= events && EndsWithItsTerminal(p)
    ensures p == CutAtTerminal(events)
  {
    assert p[0] == events[0];
    if |p| > 1 {
      PrefixWithTerminalIsCut(p[1..], events[1..]);
      assert p == [p[0]] + p[1..];
    }
  }

  // A prefix without terminal events lies within the cut.
  lemma {:induction false} OpenPrefixWithinCut(p: seq<Envelope>, events: seq<Envelope>)
    requires p <= events && NoTerminal(p)
    ensures p <= CutAtTerminal(events)
  {
    if p != [] {
      assert p[0] == events[0];
      assert NoTerminal(p[1..]);
      OpenPrefixWithinCut(p[1..], events[1..]);
    }
  }
}

/** The events an adapter sends (internal/claw/adapter.go). */
module Claw {
  import opened Wrappers

  // `Unknown` stands for every type string without a meaning of its own.
  datatype EventType = Started | Delta | Done | Error | Unknown(name: string)

  datatype Event = Event(typ: EventType, text: string, err: Option<string>, exitCode: int)

  const STARTED := Event(Started, "", None, 0)
  const DONE := Event(Done, "", None, 0)

  function DeltaOf(text: string): Event {
    Event(Delta, text, None, 0)
  }

  function ErrorOf(err: string): Event {
    Event(Error, "", Some(err), 0)
  }

  function ErrorText(text: string): Event {
    Event(Error, text, None, 0)
  }

  predicate IsFinal(e: Event) {
    e.typ.Done? || e.typ.Error?
  }

  // One final event, at the end, and only Started and Delta events before it.
  predicate EndsOnce(events: seq<Event>) {
    && |events| > 0 && IsFinal(events[|events| - 1])
    && forall i :: 0 <= i < |events| - 1 ==> events[i].typ.Started? || events[i].typ.Delta?
  }

  // ----- the text of a stream -----

  // The deltas, one after the other.
  function Shown(events: seq<Event>): string {
    if events == [] then ""
    else Shown(events[..|events| - 1]) + if events[|events| - 1].typ.Delta? then events[|events| - 1].text else ""
  }

  lemma {:induction false} ShownAppend(events: seq<Event>, more: seq<Event>)
    ensures Shown(events + more) == Shown(events) + Shown(more)
  {
    if more == [] {
      assert events + more == events;
    } else {
      var front, last := more[..|more| - 1], more[|more| - 1];
      assert (events + more)[..|events| + |more| - 1] == events + front;
      ShownAppend(events, front);
    }
  }

  lemma ShownOne(e: Event)
    ensures Shown([e]) == if e.typ.Delta? then e.text else ""
  {
    assert Shown([e][..0]) == "";
  }
}

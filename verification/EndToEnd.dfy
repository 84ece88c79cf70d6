/** A chat from the adapter to the browser: the task loop and the gateway, composed. */
module EndToEnd {
  import opened Wrappers
  import opened Envelopes
  import opened Protocol
  import opened ProtocolInvariant
  import opened ProtocolDelivery
  import opened TaskLoop
  import Claw
  import Subprocess
  import OpenAI
  import ToolUseText
  import SubprocessText

  // The JSON object a browser is written; absent keys are None (server.go:1887-1900).
  datatype Response = Response(typ: MessageType, text: Option<string>, error: Option<string>, done: bool)

  function ChatEventResponse(event: Envelope): (r: Response)
    ensures r.typ == event.typ && (r.done <==> IsTerminal(event))
    ensures r.text.Some? ==> r.text == event.payload.text != Some("") && !event.typ.Error?
    ensures r.error.Some? ==> r.error == event.payload.text != Some("") && event.typ.Error? && r.done
    ensures r.text.None? && r.error.None? ==> event.payload.text in {None, Some("")}
  {
    var shown := if event.payload.text == Some("") then None else event.payload.text;
    var isError := event.typ.Error?;
    Response(event.typ,
             if isError then None else shown,
             if isError then shown else None,
             IsTerminal(event))
  }

  function Responses(events: seq<Envelope>): (rs: seq<Response>)
    ensures |rs| == |events|
  {
    seq(|events|, i requires 0 <= i < |events| => ChatEventResponse(events[i]))
  }

  ghost predicate OneDoneAtTheEnd(rs: seq<Response>) {
    |rs| > 0 && rs[|rs| - 1].done && forall i :: 0 <= i < |rs| - 1 ==> !rs[i].done
  }

  // In every interleaving and whatever ids are reused, a browser gets at most one `done`
  // response, and nothing after it.
  lemma NothingAfterDone(s: State, w: WaiterId, i: nat)
    requires Reachable(s) && w < |s.table| && i < |s.table[w].written|
    requires Responses(s.table[w].written)[i].done
    ensures i == |s.table[w].written| - 1
  {
    BrowserSeesPrefix(s, w);
    CutIsPrefix(Offered(s, w));
  }

  // An undisturbed chat: no sweep hit the waiter, the browser did not give up, and what its
  // connection dispatched for it is what the runtime's task loop had written so far. When
  // the browser is done it has seen every envelope of the task, in order, and exactly one
  // `done`, at the end.
  lemma UndisturbedChatShowsWholeTask(s: State, w: WaiterId, task: Envelope, outcome: Outcome)
    requires Reachable(s) && w < |s.table|
    requires !StillReading(s.table[w]) && !s.table[w].quit && !s.table[w].fate.Swept?
    requires Offered(s, w) <= TaskEnvelopes(task, outcome)
    ensures s.table[w].written == TaskEnvelopes(task, outcome)
    ensures OneDoneAtTheEnd(Responses(s.table[w].written))
  {
    UndisturbedChatIsComplete(s, w);
    TaskEndsExactlyOnce(task, outcome);
    var written, sent := s.table[w].written, TaskEnvelopes(task, outcome);
    CutIsPrefix(Offered(s, w));
    var n := |written|;
    assert written[n - 1] == sent[n - 1];
  }

  // A swept chat still ends: the browser reads on to a final event, the task's own or the
  // sweep's error.
  lemma SweptChatEnds(s: State, w: WaiterId)
    requires Reachable(s) && w < |s.table| && !StillReading(s.table[w]) && !s.table[w].quit
    ensures OneDoneAtTheEnd(Responses(s.table[w].written))
  {
    ReachableInv(s);
    WaiterFacts(s, w);
  }

  // The task loop adds nothing to a stream that ends once, and drops nothing.
  lemma WholeStreamIsForwarded(task: Envelope, events: seq<Claw.Event>)
    requires Claw.EndsOnce(events)
    ensures TaskEnvelopes(task, Stream(events)) == Translated(events, task)
  {
    var all := Translated(events, task);
    assert IsTerminal(all[|all| - 1]);
    PrefixWithTerminalIsCut(all, all);
  }

  // So the whole output of a child that could be read to its end reaches the gateway.
  lemma SubprocessIsForwarded(task: Envelope, s: Subprocess.State)
    requires Subprocess.Reachable(s) && s.closed && !s.canceled
    requires s.stdout.failure.None? && s.stderr.failure.None?
    ensures TaskEnvelopes(task, Stream(Subprocess.Events(s.sent))) == Translated(Subprocess.Events(s.sent), task)
  {
    Subprocess.CompleteStreamEndsOnce(s);
    WholeStreamIsForwarded(task, Subprocess.Events(s.sent));
  }

  // And so does all that the tool-use loop says, whatever the model replies.
  lemma ToolUseIsForwarded(task: Envelope, n: nat, replies: seq<OpenAI.Reply>, shell: OpenAI.Shell)
    requires OpenAI.AllContinue(n, replies) && (n < OpenAI.MAX_ITERATIONS ==> n < |replies|)
    ensures var events := OpenAI.EventsBefore(n, replies, shell) + OpenAI.Ending(n, replies);
      TaskEnvelopes(task, Stream(events)) == Translated(events, task)
  {
    OpenAI.StreamEndsOnce(n, replies, shell);
    WholeStreamIsForwarded(task, OpenAI.EventsBefore(n, replies, shell) + OpenAI.Ending(n, replies));
  }

  // ----- what the browser reads -----

  // The texts of the delta responses, one after the other.
  function ResponseText(rs: seq<Response>): string {
    if rs == [] then ""
    else
      var last := rs[|rs| - 1];
      ResponseText(rs[..|rs| - 1]) + if last.typ.Delta? then last.text.GetOr("") else ""
  }

  lemma {:induction false} ResponsesSayDeltas(events: seq<Envelope>)
    ensures ResponseText(Responses(events)) == DeltaText(events)
  {
    if events != [] {
      var front := events[..|events| - 1];
      ResponsesSayDeltas(front);
      assert Responses(events)[..|events| - 1] == Responses(front);
    }
  }

  // What is wrong with it, if the chat ends with an error.
  lemma ErrorIsShown(e: Envelope)
    requires e.typ.Error? && e.payload.text.Some? && e.payload.text.value != ""
    ensures var r := ChatEventResponse(e);
      r.typ.Error? && r.error == e.payload.text && r.text.None? && r.done
  {
  }

  // An undisturbed chat shows the browser the adapter's text, all of it and nothing else, up to
  // its first final event.
  lemma UndisturbedChatShowsText(s: State, w: WaiterId, task: Envelope, events: seq<Claw.Event>)
    requires Reachable(s) && w < |s.table|
    requires !StillReading(s.table[w]) && !s.table[w].quit && !s.table[w].fate.Swept?
    requires Offered(s, w) <= TaskEnvelopes(task, Stream(events))
    ensures ResponseText(Responses(s.table[w].written)) == Claw.Shown(Heard(events))
  {
    UndisturbedChatShowsWholeTask(s, w, task, Stream(events));
    ResponsesSayDeltas(s.table[w].written);
    TextIsConserved(task, events);
  }

  // A chat that a sweep ended does not look complete: if the last event that its browser was
  // written is the sweep's, its last response is an error, says that the runtime was replaced or
  // is gone, and has no text.
  lemma SweptChatShowsError(s: State, w: WaiterId)
    requires Reachable(s) && w < |s.table| && !StillReading(s.table[w]) && !s.table[w].quit
    requires var n := |s.table[w].written|; 0 < n <= |s.table[w].sent| && s.table[w].sent[n - 1].synthetic
    ensures var rs := Responses(s.table[w].written);
      var last := rs[|rs| - 1];
      && last.typ.Error? && last.done && last.text.None?
      && last.error in {Some("runtime connection replaced"), Some("runtime disconnected")}
  {
    ReachableInv(s);
    WaiterFacts(s, w);
    var x := s.table[w];
    var n := |x.written|;
    SweepsSendErrors(s, w, n - 1);
    assert x.written[n - 1] == Events(x.sent)[..n][n - 1] == x.sent[n - 1].event;
    ErrorIsShown(x.written[n - 1]);
    hide Inv, Reachable, LinksOk, PlaceOk, StreamOk, SweepOk;
  }

  // A stream that ends once is heard to its end.
  lemma EndsOnceIsHeard(events: seq<Claw.Event>)
    requires Claw.EndsOnce(events)
    ensures Heard(events) == events[..|events| - 1] && Claw.Shown(Heard(events)) == Claw.Shown(events)
  {
    HeardIs(events);
    assert Claw.IsFinal(events[|events| - 1]) && !Streams(events[|events| - 1]);
    assert forall i :: 0 <= i < |events| - 1 ==> Streams(events[i]);
    assert |Heard(events)| == |events| - 1;
  }

  // Of a run of the tool-use loop the browser reads the commands with their outputs, and then
  // exactly the model's answer.
  lemma AnswerIsRead(task: Envelope, n: nat, replies: seq<OpenAI.Reply>, shell: OpenAI.Shell)
    requires OpenAI.AllContinue(n, replies) && n < OpenAI.MAX_ITERATIONS && n < |replies| && replies[n].Answer?
    ensures var events := OpenAI.EventsBefore(n, replies, shell) + OpenAI.Ending(n, replies);
      var rs := Responses(TaskEnvelopes(task, Stream(events)));
      && ResponseText(rs) == ToolUseText.CommandsText(n, replies, shell) + replies[n].content
      && rs != [] && rs[|rs| - 1].typ.Done? && rs[|rs| - 1].done && rs[|rs| - 1].error.None?
  {
    var events := OpenAI.EventsBefore(n, replies, shell) + OpenAI.Ending(n, replies);
    OpenAI.StreamEndsOnce(n, replies, shell);
    ToolUseText.AnswerIsSent(n, replies, shell);
    EndsOnceIsHeard(events);
    TextIsConserved(task, events);
    ResponsesSayDeltas(TaskEnvelopes(task, Stream(events)));
    EndIsTold(task, events);
    hide OpenAI.EventsBefore, OpenAI.Ending, OpenAI.AllContinue, ToolUseText.CommandsText, Claw.Shown, TaskEnvelopes, Heard, ResponseText, DeltaText;
  }

  // Of a child that prints nothing to stderr the browser reads all that it printed.
  lemma OutputIsRead(task: Envelope, run: seq<Subprocess.Action>, s: Subprocess.State)
    requires Subprocess.Exec(Subprocess.STARTED_STATE, run) == Some(s) && s.closed && !s.canceled
    requires s.stdout.failure.None? && s.stderr.failure.None?
    requires SubprocessText.ReadChunks(run, Subprocess.Stderr) == []
    ensures ResponseText(Responses(TaskEnvelopes(task, Stream(Subprocess.Events(s.sent)))))
         == SubprocessText.Joined("", SubprocessText.ReadChunks(run, Subprocess.Stdout))
  {
    var events := Subprocess.Events(s.sent);
    assert Subprocess.Reachable(s);
    Subprocess.CompleteStreamEndsOnce(s);
    SubprocessText.StdoutIsShown(run, s);
    EndsOnceIsHeard(events);
    TextIsConserved(task, events);
    ResponsesSayDeltas(TaskEnvelopes(task, Stream(events)));
    hide Claw.Shown, TaskEnvelopes, Heard, ResponseText, DeltaText, Subprocess.Exec, Subprocess.Reachable;
  }
}

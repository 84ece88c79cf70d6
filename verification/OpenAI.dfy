/**
 The bounded tool-use loop of OpenAIAdapter.Run (internal/claw/openai.go). The model's
 replies and the results of the shell commands are arbitrary: `replies[i]` is what the i-th
 request came to, `shell(i, j)` the result of that reply's j-th tool call.
 */
module OpenAI {
  import opened Wrappers
  import opened Claw

  const MAX_ITERATIONS: nat := 10

  // `command` is what parsing the call's arguments came to.
  datatype ToolCall = ToolCall(id: string, name: string, command: Result<string, string>)

  datatype ChatMessage = ChatMessage(
    role: string,
    content: string,
    toolCallId: string,
    toolCalls: seq<ToolCall>,
    name: string)

  datatype Reply =
    | RequestFails(err: string)       // marshalling, creating, sending, reading or parsing
    | BadStatus(text: string)
    | Answer(role: string, content: string, finishReason: string, toolCalls: seq<ToolCall>)

  datatype ShellResult = ShellResult(output: string, err: Option<string>)

  type Shell = (nat, nat) -> ShellResult

  // ----- the transcript that should be sent -----

  // The prompt's first sentence stands for all of it.
  const SYSTEM_PROMPT: string := "You are an AI agent running inside a Linux container."

  function Prelude(text: string): seq<ChatMessage> {
    [ChatMessage("system", SYSTEM_PROMPT, "", [], ""), ChatMessage("user", text, "", [], "")]
  }

  // The reply is answered with tool results and another request (openai.go:166).
  predicate Continues(r: Reply) {
    r.Answer? && r.finishReason == "tool_calls" && r.toolCalls != []
  }

  predicate AllContinue(n: nat, replies: seq<Reply>) {
    n <= |replies| && forall i :: 0 <= i < n ==> Continues(replies[i])
  }

  predicate Executes(tc: ToolCall) {
    tc.name == "bash" && tc.command.Ok?
  }

  // openai.go:208-214.
  function ShellText(r: ShellResult): string {
    var text := if r.err.Some? then r.output + "\nexit error: " + r.err.value else r.output;
    if text == "" then "(no output)" else text
  }

  predicate Answers(m: ChatMessage, tc: ToolCall) {
    m.role == "tool" && m.toolCallId == tc.id && m.toolCalls == []
  }

  // The message that answers one tool call.
  function ToolMessage(tc: ToolCall, r: ShellResult): (m: ChatMessage)
    ensures Answers(m, tc)
  {
    ChatMessage("tool",
      if tc.name != "bash" then "error: unknown tool"
      else if tc.command.Err? then "error: invalid arguments: " + tc.command.error
      else ShellText(r),
      tc.id, [], tc.name)
  }

  function AssistantMessage(r: Reply): ChatMessage
    requires r.Answer?
  {
    ChatMessage(r.role, r.content, "", r.toolCalls, "")
  }

  function ToolMessages(calls: seq<ToolCall>, i: nat, shell: Shell): (ms: seq<ChatMessage>)
    ensures |ms| == |calls|
  {
    seq(|calls|, j requires 0 <= j < |calls| => ToolMessage(calls[j], shell(i, j)))
  }

  // The messages added by one reply that continues.
  function Block(r: Reply, i: nat, shell: Shell): seq<ChatMessage> {
    if r.Answer? then [AssistantMessage(r)] + ToolMessages(r.toolCalls, i, shell) else []
  }

  // The messages added by the first n replies.
  function Blocks(n: nat, replies: seq<Reply>, shell: Shell): seq<ChatMessage>
    requires n <= |replies|
  {
    if n == 0 then [] else Blocks(n - 1, replies, shell) + Block(replies[n - 1], n - 1, shell)
  }

  // The request sent after n replies.
  function Transcript(n: nat, text: string, replies: seq<Reply>, shell: Shell): seq<ChatMessage>
    requires n <= |replies|
  {
    Prelude(text) + Blocks(n, replies, shell)
  }

  predicate AreTranscripts(requests: seq<seq<ChatMessage>>, text: string, replies: seq<Reply>, shell: Shell)
  {
    && |requests| <= |replies|
    && forall i :: 0 <= i < |requests| ==> requests[i] == Transcript(i, text, replies, shell)
  }

  // ----- the events that should be sent -----

  function OpenFence(command: string): Event {
    DeltaOf("\n```bash\n$ " + command + "\n")
  }

  const CLOSE_FENCE := DeltaOf("```\n")

  function Text(text: string): seq<Event> {
    if text == "" then [] else [DeltaOf(text)]
  }

  // One executed command: an opened fence, its output if any, the closed fence.
  function Echo(tc: ToolCall, r: ShellResult): seq<Event> {
    if Executes(tc) then [OpenFence(tc.command.value)] + Text(r.output) + [CLOSE_FENCE] else []
  }

  function Echoes(calls: seq<ToolCall>, k: nat, i: nat, shell: Shell): seq<Event>
    requires k <= |calls|
  {
    if k == 0 then [] else Echoes(calls, k - 1, i, shell) + Echo(calls[k - 1], shell(i, k - 1))
  }

  function Progress(n: nat, replies: seq<Reply>, shell: Shell): seq<Event>
    requires n <= |replies|
  {
    if n == 0 then []
    else Progress(n - 1, replies, shell)
         + if replies[n - 1].Answer?
           then Echoes(replies[n - 1].toolCalls, |replies[n - 1].toolCalls|, n - 1, shell)
           else []
  }

  // The events sent before the reply n is looked at.
  function EventsBefore(n: nat, replies: seq<Reply>, shell: Shell): seq<Event>
    requires n <= |replies|
  {
    [STARTED] + Progress(n, replies, shell)
  }

  // How the run ends after n continuing replies.
  function Ending(n: nat, replies: seq<Reply>): seq<Event>
    requires n < MAX_ITERATIONS ==> n < |replies|
  {
    if n >= MAX_ITERATIONS then [ErrorText("agent reached maximum tool-use iterations")]
    else match replies[n]
      case RequestFails(err) => [ErrorOf(err)]
      case BadStatus(text) => [ErrorText(text)]
      case Answer(_, content, _, _) => Text(content) + [DONE]
  }

  // ----- the loop -----

  // openai.go:90-226. `requests` are the message lists sent to the model, `out` the events;
  // n is the number of replies that were answered with tool results.
  method Run(text: string, replies: seq<Reply>, shell: Shell)
    returns (requests: seq<seq<ChatMessage>>, out: seq<Event>, n: nat)
    requires |replies| >= MAX_ITERATIONS
    ensures n <= MAX_ITERATIONS && AllContinue(n, replies)
    ensures n < MAX_ITERATIONS ==> !Continues(replies[n])
    ensures |requests| <= 10 && (|requests| < 10 ==> n == |requests| - 1)
    ensures forall i :: 0 <= i < n ==>
      replies[i].Answer? && replies[i].finishReason == "tool_calls" && replies[i].toolCalls != []
    ensures n < 10 ==>
      !(replies[n].Answer? && replies[n].finishReason == "tool_calls" && replies[n].toolCalls != [])
    ensures |requests| == if n < MAX_ITERATIONS then n + 1 else n
    ensures AreTranscripts(requests, text, replies, shell)
    ensures out == EventsBefore(n, replies, shell) + Ending(n, replies)
  {
    requests, n := [], 0;
    out := [STARTED];
    var messages := Prelude(text);
    assert messages == Transcript(0, text, replies, shell) && out == EventsBefore(0, replies, shell);
    assert AreTranscripts(requests, text, replies, shell);
    hide AllContinue, ToolMessages, Echoes, Ending, Transcript, EventsBefore, AssistantMessage, AreTranscripts, Continues;
    while n < MAX_ITERATIONS
      invariant n <= MAX_ITERATIONS && AllContinue(n, replies)
      invariant |requests| == n
      invariant AreTranscripts(requests, text, replies, shell)
      invariant messages == Transcript(n, text, replies, shell)
      invariant out == EventsBefore(n, replies, shell)
    {
      OneMoreRequest(requests, messages, text, replies, shell);
      requests := requests + [messages];
      var r := replies[n];
      assert Continues(r) ==> r.Answer? by { ContinuesMeans(r); }
      if !Continues(r) {
        var end := Finish(n, replies);
        out := out + end;
        return;
      }
      OneMoreReply(n, text, replies, shell);
      messages, out := AnswerReply(messages, out, r, n, shell);
      n := n + 1;
    }
    var end := GiveUp(replies);
    out := out + end;
  }

  // openai.go:159-164 and 175-222: the reply and the results of its tool calls.
  method AnswerReply(messages: seq<ChatMessage>, out: seq<Event>, r: Reply, i: nat, shell: Shell)
    returns (messages': seq<ChatMessage>, out': seq<Event>)
    requires r.Answer?
    ensures messages' == messages + [AssistantMessage(r)] + ToolMessages(r.toolCalls, i, shell)
    ensures out' == out + Echoes(r.toolCalls, |r.toolCalls|, i, shell)
  {
    hide ToolMessages, Echoes;
    messages' := messages + [ChatMessage(r.role, r.content, "", r.toolCalls, "")];
    var answers, echoes := RunTools(r.toolCalls, i, shell);
    messages' := messages' + answers;
    out' := out + echoes;
  }

  lemma ContinuesMeans(r: Reply)
    ensures Continues(r) ==> r.Answer?
  {
  }

  lemma OneMoreRequest(requests: seq<seq<ChatMessage>>, messages: seq<ChatMessage>, text: string, replies: seq<Reply>, shell: Shell)
    requires AreTranscripts(requests, text, replies, shell) && |requests| < |replies|
    requires messages == Transcript(|requests|, text, replies, shell)
    ensures AreTranscripts(requests + [messages], text, replies, shell)
  {
    hide Transcript;
  }

  lemma OneMoreReply(n: nat, text: string, replies: seq<Reply>, shell: Shell)
    requires n < |replies| && AllContinue(n, replies) && Continues(replies[n])
    ensures AllContinue(n + 1, replies)
    ensures var r := replies[n];
      && Transcript(n, text, replies, shell) + [AssistantMessage(r)] + ToolMessages(r.toolCalls, n, shell)
         == Transcript(n + 1, text, replies, shell)
      && EventsBefore(n, replies, shell) + Echoes(r.toolCalls, |r.toolCalls|, n, shell)
         == EventsBefore(n + 1, replies, shell)
  {
    hide Echoes, ToolMessages, AssistantMessage, Prelude;
    var r := replies[n];
    Reassociate(Prelude(text), Blocks(n, replies, shell), [AssistantMessage(r)], ToolMessages(r.toolCalls, n, shell));
    Reassociate([STARTED], [], Progress(n, replies, shell), Echoes(r.toolCalls, |r.toolCalls|, n, shell));
    assert [STARTED] + [] == [STARTED];
    assert [] + (Progress(n, replies, shell) + Echoes(r.toolCalls, |r.toolCalls|, n, shell))
        == Progress(n, replies, shell) + Echoes(r.toolCalls, |r.toolCalls|, n, shell);
  }

  lemma Reassociate<T>(a: seq<T>, b: seq<T>, c: seq<T>, d: seq<T>)
    ensures a + b + c + d == a + (b + (c + d))
  {
  }

  // openai.go:126-173: a reply that ends the run.
  method Finish(n: nat, replies: seq<Reply>) returns (out: seq<Event>)
    requires n < MAX_ITERATIONS && n < |replies| && !Continues(replies[n])
    ensures out == Ending(n, replies)
  {
    var r := replies[n];
    if r.RequestFails? {
      return [ErrorOf(r.err)];
    }
    if r.BadStatus? {
      return [ErrorText(r.text)];
    }
    out := [];
    if r.content != "" {
      out := out + [DeltaOf(r.content)];
    }
    out := out + [DONE];
  }

  // openai.go:225.
  method GiveUp(replies: seq<Reply>) returns (out: seq<Event>)
    ensures out == Ending(MAX_ITERATIONS, replies)
  {
    out := [ErrorText("agent reached maximum tool-use iterations")];
  }

  // openai.go:175-222: the tool calls of one reply.
  method RunTools(calls: seq<ToolCall>, i: nat, shell: Shell)
    returns (messages: seq<ChatMessage>, out: seq<Event>)
    ensures messages == ToolMessages(calls, i, shell)
    ensures out == Echoes(calls, |calls|, i, shell)
  {
    messages, out := [], [];
    ghost var all := ToolMessages(calls, i, shell);
    assert out == Echoes(calls, 0, i, shell) && messages == all[..0] && all[..|calls|] == all;
    hide ToolMessages, Echoes, ToolMessage, Echo;
    for j := 0 to |calls|
      invariant messages == all[..j]
      invariant out == Echoes(calls, j, i, shell)
    {
      OneMoreTool(calls, j, i, shell);
      var message, echo := RunTool(calls[j], i, j, shell);
      messages := messages + [message];
      out := out + echo;
    }
  }

  lemma OneMoreTool(calls: seq<ToolCall>, j: nat, i: nat, shell: Shell)
    requires j < |calls|
    ensures ToolMessages(calls, i, shell)[..j + 1]
         == ToolMessages(calls, i, shell)[..j] + [ToolMessage(calls[j], shell(i, j))]
    ensures Echoes(calls, j + 1, i, shell) == Echoes(calls, j, i, shell) + Echo(calls[j], shell(i, j))
  {
    hide ToolMessage, Echo;
  }

  // openai.go:176-221: one tool call.
  method RunTool(tc: ToolCall, i: nat, j: nat, shell: Shell) returns (message: ChatMessage, out: seq<Event>)
    ensures message == ToolMessage(tc, shell(i, j)) && out == Echo(tc, shell(i, j))
  {
    out := [];
    if tc.name != "bash" {
      message := ChatMessage("tool", "error: unknown tool", tc.id, [], tc.name);
      return;
    }
    if tc.command.Err? {
      message := ChatMessage("tool", "error: invalid arguments: " + tc.command.error, tc.id, [], "bash");
      return;
    }
    out := out + [OpenFence(tc.command.value)];
    var r := shell(i, j);
    if r.output != "" {
      out := out + [DeltaOf(r.output)];
    }
    out := out + [CLOSE_FENCE];
    var result := r.output;
    if r.err.Some? {
      result := r.output + "\nexit error: " + r.err.value;
    }
    if result == "" {
      result := "(no output)";
    }
    message := ChatMessage("tool", result, tc.id, [], "bash");
  }

  // ----- every request is a transcript the chat API accepts -----

  // Blocks of one message with k >= 1 tool calls and then exactly k tool messages with the
  // same ids in the same order.
  ghost predicate IsDialogue(ms: seq<ChatMessage>)
    decreases |ms|
  {
    ms == [] ||
    (var k := |ms[0].toolCalls|;
     && 1 <= k < |ms|
     && (forall j :: 0 <= j < k ==> Answers(ms[1 + j], ms[0].toolCalls[j]))
     && IsDialogue(ms[1 + k..]))
  }

  lemma {:induction false} DialogueAppend(ms: seq<ChatMessage>, more: seq<ChatMessage>)
    requires IsDialogue(ms) && IsDialogue(more)
    ensures IsDialogue(ms + more)
    decreases |ms|
  {
    if ms == [] {
      assert ms + more == more;
    } else {
      var k := |ms[0].toolCalls|;
      assert (ms + more)[1 + k..] == ms[1 + k..] + more;
      DialogueAppend(ms[1 + k..], more);
    }
  }

  lemma {:induction false} BlocksAreDialogue(n: nat, replies: seq<Reply>, shell: Shell)
    requires AllContinue(n, replies)
    ensures IsDialogue(Blocks(n, replies, shell))
  {
    hide IsDialogue, Block, Blocks;
    if n == 0 {
      NoBlocks(replies, shell);
    } else {
      BlocksAreDialogue(n - 1, replies, shell);
      BlockIsDialogue(replies[n - 1], n - 1, shell);
      DialogueAppend(Blocks(n - 1, replies, shell), Block(replies[n - 1], n - 1, shell));
      OneMoreBlock(n, replies, shell);
    }
  }

  lemma NoBlocks(replies: seq<Reply>, shell: Shell)
    ensures IsDialogue(Blocks(0, replies, shell))
  {
  }

  lemma BlockIsDialogue(r: Reply, i: nat, shell: Shell)
    requires Continues(r)
    ensures IsDialogue(Block(r, i, shell))
  {
    hide ToolMessage;
    var block := Block(r, i, shell);
    assert block[1 + |r.toolCalls|..] == [];
    assert block[0].toolCalls == r.toolCalls;
    assert forall j :: 0 <= j < |r.toolCalls| ==> block[1 + j] == ToolMessage(r.toolCalls[j], shell(i, j));
  }

  lemma OneMoreBlock(n: nat, replies: seq<Reply>, shell: Shell)
    requires 0 < n <= |replies|
    ensures Blocks(n, replies, shell) == Blocks(n - 1, replies, shell) + Block(replies[n - 1], n - 1, shell)
    ensures Blocks(n - 1, replies, shell) <= Blocks(n, replies, shell)
  {
    hide Block;
  }

  // A request only ever extends the one before.
  lemma {:induction false} BlocksGrow(m: nat, n: nat, replies: seq<Reply>, shell: Shell)
    requires m <= n && AllContinue(n, replies)
    ensures Blocks(m, replies, shell) <= Blocks(n, replies, shell)
    decreases n - m
  {
    hide Block, Blocks, Continues;
    if m < n {
      BlocksGrow(m, n - 1, replies, shell);
      OneMoreBlock(n, replies, shell);
    }
  }

  // ----- the event stream -----

  predicate AllDeltas(events: seq<Event>) {
    forall i :: 0 <= i < |events| ==> events[i].typ.Delta?
  }

  // A sequence of commands, each with its fence closed after at most one delta.
  ghost predicate AllFencesClosed(events: seq<Event>)
    decreases |events|
  {
    events == [] ||
    ((exists command :: events[0] == OpenFence(command)) &&
     ((|events| >= 2 && events[1] == CLOSE_FENCE && AllFencesClosed(events[2..]))
      || (|events| >= 3 && events[2] == CLOSE_FENCE && AllFencesClosed(events[3..]))))
  }

  lemma {:induction false} FencesAppend(events: seq<Event>, more: seq<Event>)
    requires AllFencesClosed(events) && AllFencesClosed(more)
    ensures AllFencesClosed(events + more)
    decreases |events|
  {
    if events == [] {
      assert events + more == more;
    } else if |events| >= 2 && events[1] == CLOSE_FENCE && AllFencesClosed(events[2..]) {
      assert (events + more)[2..] == events[2..] + more;
      FencesAppend(events[2..], more);
    } else {
      assert (events + more)[3..] == events[3..] + more;
      FencesAppend(events[3..], more);
    }
  }

  lemma EchoIsClosed(tc: ToolCall, r: ShellResult)
    ensures AllFencesClosed(Echo(tc, r)) && AllDeltas(Echo(tc, r))
  {
    var events := Echo(tc, r);
    if Executes(tc) {
      assert events[0] == OpenFence(tc.command.value);
      if r.output == "" { assert events[2..] == []; } else { assert events[3..] == []; }
    }
  }

  lemma {:induction false} EchoesAreClosed(calls: seq<ToolCall>, k: nat, i: nat, shell: Shell)
    requires k <= |calls|
    ensures AllFencesClosed(Echoes(calls, k, i, shell)) && AllDeltas(Echoes(calls, k, i, shell))
  {
    if k > 0 {
      EchoesAreClosed(calls, k - 1, i, shell);
      EchoIsClosed(calls[k - 1], shell(i, k - 1));
      FencesAppend(Echoes(calls, k - 1, i, shell), Echo(calls[k - 1], shell(i, k - 1)));
    }
  }

  // Between Started and the ending, every event that opens a code fence is followed by one
  // that closes it. What that comes to in the text is told by module CodeFences.
  lemma {:induction false} ProgressIsClosed(n: nat, replies: seq<Reply>, shell: Shell)
    requires AllContinue(n, replies)
    ensures AllFencesClosed(Progress(n, replies, shell)) && AllDeltas(Progress(n, replies, shell))
  {
    hide Echoes, Progress, AllFencesClosed, AllDeltas, Continues;
    if n == 0 {
      NoProgress(replies, shell);
    } else {
      ContinuesMeans(replies[n - 1]);
      var calls := replies[n - 1].toolCalls;
      var echoes, before := Echoes(calls, |calls|, n - 1, shell), Progress(n - 1, replies, shell);
      ProgressIsClosed(n - 1, replies, shell);
      OneMoreProgress(n, replies, shell);
      EchoesAreClosed(calls, |calls|, n - 1, shell);
      FencesAppend(before, echoes);
      DeltasAppend(before, echoes);
    }
  }

  lemma NoProgress(replies: seq<Reply>, shell: Shell)
    ensures AllFencesClosed(Progress(0, replies, shell)) && AllDeltas(Progress(0, replies, shell))
  {
  }

  lemma OneMoreProgress(n: nat, replies: seq<Reply>, shell: Shell)
    requires 0 < n <= |replies| && replies[n - 1].Answer?
    ensures var calls := replies[n - 1].toolCalls;
      Progress(n, replies, shell) == Progress(n - 1, replies, shell) + Echoes(calls, |calls|, n - 1, shell)
  {
    hide Echoes;
  }

  lemma DeltasAppend(events: seq<Event>, more: seq<Event>)
    requires AllDeltas(events) && AllDeltas(more)
    ensures AllDeltas(events + more)
  {
  }

  lemma EndingEnds(n: nat, replies: seq<Reply>)
    requires n < MAX_ITERATIONS ==> n < |replies|
    ensures var end := Ending(n, replies);
      |end| > 0 && IsFinal(end[|end| - 1]) && AllDeltas(end[..|end| - 1])
  {
  }

  // Whatever the model replies, the stream starts with Started and has exactly one final
  // event, the last.
  lemma StreamEndsOnce(n: nat, replies: seq<Reply>, shell: Shell)
    requires AllContinue(n, replies) && (n < MAX_ITERATIONS ==> n < |replies|)
    ensures var out := EventsBefore(n, replies, shell) + Ending(n, replies);
      && out[0] == STARTED
      && EndsOnce(out)
  {
    ProgressIsClosed(n, replies, shell);
    EndingEnds(n, replies);
    var progress, end := Progress(n, replies, shell), Ending(n, replies);
    hide Progress, Ending, AllFencesClosed;
    var out := [STARTED] + progress + end;
    forall i | 0 <= i < |out| - 1 ensures out[i].typ.Started? || out[i].typ.Delta? {
      if 0 < i <= |progress| {
        assert out[i] == progress[i - 1];
      } else if i > 0 {
        assert out[i] == end[..|end| - 1][i - 1 - |progress|];
      }
    }
  }
}

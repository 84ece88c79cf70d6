/**
 What the tool-use loop (internal/claw/openai.go) says to the user and to the model: the text of
 its deltas, how its stream ends, and the contents of the messages it sends.
 */
module ToolUseText {
  import opened Wrappers
  import opened Claw
  import opened OpenAI

  // ----- to the user -----

  // A command as it is shown: in a code block with its output.
  function CommandText(command: string, output: string): string {
    "\n```bash\n$ " + command + "\n" + output + "```\n"
  }

  // The commands among the first k calls of the i-th reply.
  function CallsText(calls: seq<ToolCall>, k: nat, i: nat, shell: Shell): string
    requires k <= |calls|
  {
    if k == 0 then ""
    else
      var tc := calls[k - 1];
      CallsText(calls, k - 1, i, shell)
      + if tc.name == "bash" && tc.command.Ok? then CommandText(tc.command.value, shell(i, k - 1).output) else ""
  }

  // Those of the first n replies.
  function CommandsText(n: nat, replies: seq<Reply>, shell: Shell): string
    requires n <= |replies|
  {
    if n == 0 then ""
    else
      var r := replies[n - 1];
      CommandsText(n - 1, replies, shell) + if r.Answer? then CallsText(r.toolCalls, |r.toolCalls|, n - 1, shell) else ""
  }

  lemma EchoIsShown(tc: ToolCall, r: ShellResult)
    ensures Shown(Echo(tc, r))
         == if tc.name == "bash" && tc.command.Ok? then CommandText(tc.command.value, r.output) else ""
  {
    if Executes(tc) {
      var open, out := OpenFence(tc.command.value), Text(r.output);
      ShownOne(open);
      ShownOne(CLOSE_FENCE);
      ShownOne(DeltaOf(r.output));
      ShownAppend([open], out);
      ShownAppend([open] + out, [CLOSE_FENCE]);
      hide Shown;
      Joined("\n```bash\n$ " + tc.command.value + "\n", r.output, "```\n");
    }
  }

  lemma Joined(a: string, b: string, c: string)
    ensures a + b + c == a + (b + c)
  {
  }

  lemma {:induction false} EchoesAreShown(calls: seq<ToolCall>, k: nat, i: nat, shell: Shell)
    requires k <= |calls|
    ensures Shown(Echoes(calls, k, i, shell)) == CallsText(calls, k, i, shell)
  {
    hide Echo, CommandText, Shown;
    if k == 0 {
      NothingShown();
    } else {
      EchoesAreShown(calls, k - 1, i, shell);
      EchoIsShown(calls[k - 1], shell(i, k - 1));
      ShownAppend(Echoes(calls, k - 1, i, shell), Echo(calls[k - 1], shell(i, k - 1)));
    }
  }

  lemma NothingShown()
    ensures Shown([]) == "" && Shown([STARTED]) == ""
  {
    ShownOne(STARTED);
  }

  lemma {:induction false} ProgressIsShown(n: nat, replies: seq<Reply>, shell: Shell)
    requires n <= |replies|
    ensures Shown(Progress(n, replies, shell)) == CommandsText(n, replies, shell)
  {
    hide Echoes, CallsText, Shown;
    NothingShown();
    if n > 0 {
      ProgressIsShown(n - 1, replies, shell);
      var r := replies[n - 1];
      if r.Answer? {
        EchoesAreShown(r.toolCalls, |r.toolCalls|, n - 1, shell);
        ShownAppend(Progress(n - 1, replies, shell), Echoes(r.toolCalls, |r.toolCalls|, n - 1, shell));
      } else {
        assert Progress(n - 1, replies, shell) + [] == Progress(n - 1, replies, shell);
      }
    }
  }

  // What is shown before the last reply are the commands with their outputs, in order.
  lemma CommandsAreShown(n: nat, replies: seq<Reply>, shell: Shell)
    requires n <= |replies|
    ensures Shown(EventsBefore(n, replies, shell)) == CommandsText(n, replies, shell)
  {
    ProgressIsShown(n, replies, shell);
    ShownAppend([STARTED], Progress(n, replies, shell));
    NothingShown();
    hide Progress, CommandsText, Shown;
  }

  // How the stream ends, by the reply it ends with.
  ghost predicate TellsReply(last: Event, n: nat, replies: seq<Reply>)
    requires n < MAX_ITERATIONS ==> n < |replies|
  {
    last.exitCode == 0 &&
    if n >= MAX_ITERATIONS then
      last.typ.Error? && last.err.None? && last.text == "agent reached maximum tool-use iterations"
    else
      match replies[n]
      case RequestFails(err) => last.typ.Error? && last.err == Some(err)
      case BadStatus(text) => last.typ.Error? && last.err.None? && last.text == text
      case Answer(_, _, _, _) => last.typ.Done?
  }

  // The user is shown the commands with their outputs and then exactly what the model answered;
  // and is told that the run is done if and only if it was an answer that ended it, and
  // otherwise what went wrong.
  lemma AnswerIsSent(n: nat, replies: seq<Reply>, shell: Shell)
    requires AllContinue(n, replies) && (n < MAX_ITERATIONS ==> n < |replies|)
    ensures var out := EventsBefore(n, replies, shell) + Ending(n, replies);
      && Shown(out) == CommandsText(n, replies, shell)
           + (if n < MAX_ITERATIONS && replies[n].Answer? then replies[n].content else "")
      && out != [] && TellsReply(out[|out| - 1], n, replies)
      && (DONE in out <==> n < MAX_ITERATIONS && replies[n].Answer?)
  {
    StreamEndsOnce(n, replies, shell);
    CommandsAreShown(n, replies, shell);
    EndingIsShown(n, replies);
    ShownAppend(EventsBefore(n, replies, shell), Ending(n, replies));
    hide EventsBefore, Shown, CommandsText, AllContinue, Ending;
    var out := EventsBefore(n, replies, shell) + Ending(n, replies);
    assert out[|out| - 1] == Ending(n, replies)[|Ending(n, replies)| - 1];
    if n < MAX_ITERATIONS && replies[n].Answer? { assert DONE == out[|out| - 1]; }
  }

  lemma EndingIsShown(n: nat, replies: seq<Reply>)
    requires n < MAX_ITERATIONS ==> n < |replies|
    ensures var end := Ending(n, replies);
      && Shown(end) == (if n < MAX_ITERATIONS && replies[n].Answer? then replies[n].content else "")
      && end != [] && TellsReply(end[|end| - 1], n, replies)
      && (n < MAX_ITERATIONS && replies[n].Answer? ==> end[|end| - 1] == DONE)
  {
    var end := Ending(n, replies);
    ShownOne(end[|end| - 1]);
    if n < MAX_ITERATIONS && replies[n].Answer? {
      ShownAppend(Text(replies[n].content), [DONE]);
      ShownOne(DeltaOf(replies[n].content));
    }
    hide Shown;
  }

  // ----- to the model -----

  // Where the i-th reply stands in the requests that follow it.
  function BlockStart(i: nat, replies: seq<Reply>): nat
    requires i <= |replies|
  {
    if i == 0 then 2
    else BlockStart(i - 1, replies) + if replies[i - 1].Answer? then 1 + |replies[i - 1].toolCalls| else 0
  }

  // What the model is told of a tool call: the command's output and how it failed, if it did, or
  // why there was no command.
  ghost predicate TellsResult(content: string, tc: ToolCall, r: ShellResult) {
    if tc.name != "bash" then content == "error: unknown tool"
    else match tc.command
      case Err(reason) => content == "error: invalid arguments: " + reason
      case Ok(_) =>
        if r.output == "" && r.err.None? then content == "(no output)"
        else r.output <= content && content[|r.output|..] == if r.err.Some? then "\nexit error: " + r.err.value else ""
  }

  ghost predicate OpensChat(ms: seq<ChatMessage>, text: string) {
    && |ms| >= 2
    && ms[0] == ChatMessage("system", SYSTEM_PROMPT, "", [], "")
    && ms[1] == ChatMessage("user", text, "", [], "")
  }

  // The reply is handed back as it came, and behind it one result for each of its calls.
  ghost predicate RepeatsReply(block: seq<ChatMessage>, r: Reply, i: nat, shell: Shell) {
    && r.Answer? && |block| == 1 + |r.toolCalls|
    && block[0].role == r.role && block[0].content == r.content && block[0].toolCalls == r.toolCalls
    && forall j :: 0 <= j < |r.toolCalls| ==> Reports(block[1 + j], r.toolCalls[j], shell(i, j))
  }

  ghost predicate Reports(m: ChatMessage, tc: ToolCall, r: ShellResult) {
    m.role == "tool" && m.toolCallId == tc.id && m.name == tc.name && TellsResult(m.content, tc, r)
  }

  ghost predicate RepeatsInPlace(ms: seq<ChatMessage>, replies: seq<Reply>, i: nat, shell: Shell)
    requires i < |replies|
  {
    && BlockStart(i, replies) <= BlockStart(i + 1, replies) <= |ms|
    && RepeatsReply(ms[BlockStart(i, replies)..BlockStart(i + 1, replies)], replies[i], i, shell)
  }

  lemma BlockRepeats(r: Reply, i: nat, shell: Shell)
    requires r.Answer?
    ensures RepeatsReply(Block(r, i, shell), r, i, shell)
  {
    hide ToolMessage, Reports;
    var block := Block(r, i, shell);
    forall j | 0 <= j < |r.toolCalls| ensures Reports(block[1 + j], r.toolCalls[j], shell(i, j)) {
      ResultIsTold(r.toolCalls[j], shell(i, j));
      assert block[1 + j] == ToolMessage(r.toolCalls[j], shell(i, j));
    }
  }

  lemma ResultIsTold(tc: ToolCall, r: ShellResult)
    ensures Reports(ToolMessage(tc, r), tc, r)
  {
    if r.err.Some? { Joined(r.output, "\nexit error: ", r.err.value); }
  }

  // The n-th request opens with the system prompt and the user's text, and repeats each of the n
  // replies in its place, with the results of its calls; and that is all.
  lemma {:induction false} RequestSays(n: nat, text: string, replies: seq<Reply>, shell: Shell)
    requires AllContinue(n, replies)
    ensures var ms := Transcript(n, text, replies, shell);
      && OpensChat(ms, text) && |ms| == BlockStart(n, replies)
      && forall i :: 0 <= i < n ==> RepeatsInPlace(ms, replies, i, shell)
  {
    if n > 0 {
      hide Prelude, Block, RepeatsReply, RepeatsInPlace;
      RequestSays(n - 1, text, replies, shell);
      var before, block := Transcript(n - 1, text, replies, shell), Block(replies[n - 1], n - 1, shell);
      assert Transcript(n, text, replies, shell) == before + block;
      LastInPlace(before, n - 1, replies, shell);
      forall i | 0 <= i < n - 1 ensures RepeatsInPlace(before + block, replies, i, shell) {
        StillInPlace(before, block, i, replies, shell);
      }
    }
  }

  lemma LastInPlace(before: seq<ChatMessage>, i: nat, replies: seq<Reply>, shell: Shell)
    requires i < |replies| && replies[i].Answer? && |before| == BlockStart(i, replies)
    ensures var ms := before + Block(replies[i], i, shell);
      RepeatsInPlace(ms, replies, i, shell) && |ms| == BlockStart(i + 1, replies)
  {
    BlockRepeats(replies[i], i, shell);
    hide Reports, ToolMessages;
    assert (before + Block(replies[i], i, shell))[|before|..] == Block(replies[i], i, shell);
  }

  lemma StillInPlace(before: seq<ChatMessage>, more: seq<ChatMessage>, i: nat, replies: seq<Reply>, shell: Shell)
    requires i < |replies| && RepeatsInPlace(before, replies, i, shell)
    ensures RepeatsInPlace(before + more, replies, i, shell)
  {
    hide RepeatsReply;
    assert (before + more)[BlockStart(i, replies)..BlockStart(i + 1, replies)]
        == before[BlockStart(i, replies)..BlockStart(i + 1, replies)];
  }
}

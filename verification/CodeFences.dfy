/**
 The code fences of the tool-use loop (internal/claw/openai.go:200-206) in the text a browser
 puts together from the deltas: whether a fence starts a line, and whether the text between two
 commands is outside of any code block.
 */
module CodeFences {
  import opened Wrappers
  import opened Claw
  import opened OpenAI

  predicate StartsLine(text: string, at: nat)
    requires at <= |text|
  {
    at == 0 || text[at - 1] == '\n'
  }

  const FENCE := "```\n"

  // A fence lies there, and starts a line.
  predicate FenceStartsLine(text: string, at: nat) {
    at + |FENCE| <= |text| && text[at..at + |FENCE|] == FENCE && StartsLine(text, at)
  }

  predicate EndsItsLine(output: string) {
    output == "" || output[|output| - 1] == '\n'
  }

  // ----- where the closing fence of a command lies -----

  function Opened(tc: ToolCall): string
    requires Executes(tc)
  {
    "\n```bash\n$ " + tc.command.value + "\n"
  }

  lemma EchoText(tc: ToolCall, r: ShellResult)
    requires Executes(tc)
    ensures Shown(Echo(tc, r)) == Opened(tc) + r.output + FENCE
  {
    var open, out := OpenFence(tc.command.value), Text(r.output);
    ShownOne(open);
    ShownOne(CLOSE_FENCE);
    ShownOne(DeltaOf(r.output));
    assert Shown(out) == r.output;
    ShownAppend([open], out);
    ShownAppend([open] + out, [CLOSE_FENCE]);
  }

  // What has been shown when the j-th command of the i-th reply has printed its output.
  function BeforeFence(i: nat, j: nat, replies: seq<Reply>, shell: Shell): string
    requires i < |replies| && replies[i].Answer? && j < |replies[i].toolCalls| && Executes(replies[i].toolCalls[j])
  {
    var calls := replies[i].toolCalls;
    Shown(EventsBefore(i, replies, shell)) + Shown(Echoes(calls, j, i, shell)) + Opened(calls[j]) + shell(i, j).output
  }

  lemma {:induction false} EchoesGrow(calls: seq<ToolCall>, j: nat, k: nat, i: nat, shell: Shell)
    requires j <= k <= |calls|
    ensures Shown(Echoes(calls, j, i, shell)) <= Shown(Echoes(calls, k, i, shell))
    decreases k
  {
    hide Echo, Shown;
    if j < k {
      EchoesGrow(calls, j, k - 1, i, shell);
      ShownAppend(Echoes(calls, k - 1, i, shell), Echo(calls[k - 1], shell(i, k - 1)));
    }
  }

  lemma {:induction false} EventsGrow(m: nat, n: nat, replies: seq<Reply>, shell: Shell)
    requires m <= n <= |replies|
    ensures Shown(EventsBefore(m, replies, shell)) <= Shown(EventsBefore(n, replies, shell))
    decreases n
  {
    if m < n {
      EventsGrow(m, n - 1, replies, shell);
      OneMoreStep(n - 1, replies, shell);
      hide EventsBefore, Shown, Echoes;
    }
  }

  function StepEchoes(i: nat, replies: seq<Reply>, shell: Shell): seq<Event>
    requires i < |replies|
  {
    if replies[i].Answer? then Echoes(replies[i].toolCalls, |replies[i].toolCalls|, i, shell) else []
  }

  lemma OneMoreStep(i: nat, replies: seq<Reply>, shell: Shell)
    requires i < |replies|
    ensures Shown(EventsBefore(i + 1, replies, shell))
         == Shown(EventsBefore(i, replies, shell)) + Shown(StepEchoes(i, replies, shell))
  {
    hide Echoes, Shown;
    var more := StepEchoes(i, replies, shell);
    assert Progress(i + 1, replies, shell) == Progress(i, replies, shell) + more;
    assert [STARTED] + (Progress(i, replies, shell) + more) == EventsBefore(i, replies, shell) + more;
    ShownAppend(EventsBefore(i, replies, shell), more);
  }

  // The fence follows there in the text of the whole run.
  lemma FenceFollows(n: nat, i: nat, j: nat, replies: seq<Reply>, shell: Shell)
    requires i < n <= |replies| && replies[i].Answer?
    requires j < |replies[i].toolCalls| && Executes(replies[i].toolCalls[j])
    ensures BeforeFence(i, j, replies, shell) + FENCE <= Shown(EventsBefore(n, replies, shell))
  {
    hide Shown, EventsBefore, Echoes, Echo, Opened;
    var calls := replies[i].toolCalls;
    var r := shell(i, j);
    var before, echoes := Shown(EventsBefore(i, replies, shell)), Shown(Echoes(calls, j, i, shell));
    var echo := Opened(calls[j]) + r.output + FENCE;
    EventsGrow(i + 1, n, replies, shell);
    OneMoreStep(i, replies, shell);
    EchoesGrow(calls, j + 1, |calls|, i, shell);
    EchoFollows(calls, j, i, shell);
    Reassociated(before, echoes, Opened(calls[j]), r.output, FENCE);
    PrefixOfPrefix(before, echoes + echo, Shown(StepEchoes(i, replies, shell)), Shown(EventsBefore(n, replies, shell)));
  }

  lemma EchoFollows(calls: seq<ToolCall>, j: nat, i: nat, shell: Shell)
    requires j < |calls| && Executes(calls[j])
    ensures Shown(Echoes(calls, j + 1, i, shell))
         == Shown(Echoes(calls, j, i, shell)) + (Opened(calls[j]) + shell(i, j).output + FENCE)
  {
    hide Shown, Echo, Opened;
    ShownAppend(Echoes(calls, j, i, shell), Echo(calls[j], shell(i, j)));
    EchoText(calls[j], shell(i, j));
  }

  lemma Reassociated(a: string, b: string, c: string, d: string, e: string)
    ensures a + b + c + d + e == a + (b + (c + d + e))
  {
  }

  lemma PrefixOfPrefix(a: string, b: string, c: string, d: string)
    requires b <= c && a + c <= d
    ensures a + b <= d
  {
  }

  // In the text shown, the closing fence of a command starts a line if and only if the
  // command's output is empty or ends its last line.
  lemma FenceStartsLineIff(n: nat, i: nat, j: nat, replies: seq<Reply>, shell: Shell)
    requires i < n <= |replies| && replies[i].Answer?
    requires j < |replies[i].toolCalls| && Executes(replies[i].toolCalls[j])
    ensures FenceStartsLine(Shown(EventsBefore(n, replies, shell)), |BeforeFence(i, j, replies, shell)|)
      <==> EndsItsLine(shell(i, j).output)
  {
    FenceFollows(n, i, j, replies, shell);
    var text, before := Shown(EventsBefore(n, replies, shell)), BeforeFence(i, j, replies, shell);
    LastOfBefore(i, j, replies, shell);
    hide Shown, EventsBefore, BeforeFence;
    assert text[..|before|] == before && text[|before|..|before| + |FENCE|] == FENCE;
    assert text[|before| - 1] == before[|before| - 1];
  }

  lemma LastOfBefore(i: nat, j: nat, replies: seq<Reply>, shell: Shell)
    requires i < |replies| && replies[i].Answer?
    requires j < |replies[i].toolCalls| && Executes(replies[i].toolCalls[j])
    ensures var before := BeforeFence(i, j, replies, shell);
      |before| > 0 && (before[|before| - 1] == '\n' <==> EndsItsLine(shell(i, j).output))
  {
    hide Shown, EventsBefore, Echoes;
    var start := Opened(replies[i].toolCalls[j]);
    assert start[|start| - 1] == '\n';
  }

  // So in the text of a whole run every closing fence starts a line if and only if every
  // command run ended its output with a newline, or printed nothing.
  lemma AllFencesStartLinesIff(n: nat, replies: seq<Reply>, shell: Shell)
    requires n <= |replies|
    ensures (forall i, j :: IsCommand(i, j, n, replies) ==>
               FenceStartsLine(Shown(EventsBefore(n, replies, shell)), |BeforeFence(i, j, replies, shell)|))
      <==> (forall i, j :: IsCommand(i, j, n, replies) ==> EndsItsLine(shell(i, j).output))
  {
    forall i, j | IsCommand(i, j, n, replies)
      ensures FenceStartsLine(Shown(EventsBefore(n, replies, shell)), |BeforeFence(i, j, replies, shell)|)
        <==> EndsItsLine(shell(i, j).output)
    {
      FenceStartsLineIff(n, i, j, replies, shell);
    }
    hide FenceStartsLine, Shown, BeforeFence, EventsBefore, EndsItsLine;
  }

  // The j-th tool call of the i-th of n replies is run.
  predicate IsCommand(i: nat, j: nat, n: nat, replies: seq<Reply>)
    requires n <= |replies|
  {
    i < n && replies[i].Answer? && j < |replies[i].toolCalls| && Executes(replies[i].toolCalls[j])
  }

  const PRINTF := ToolCall("1", "bash", Ok("printf foo"))

  // The closing fence of `printf foo` does not.
  lemma PrintfLeavesItsFenceOpen()
    ensures var shell := (i: nat, j: nat) => ShellResult("foo", None);
      var replies := [Answer("assistant", "", "tool_calls", [PRINTF])];
      && Continues(replies[0])
      && !FenceStartsLine(Shown(EventsBefore(1, replies, shell)), |BeforeFence(0, 0, replies, shell)|)
  {
    var shell := (i: nat, j: nat) => ShellResult("foo", None);
    FenceStartsLineIff(1, 0, 0, [Answer("assistant", "", "tool_calls", [PRINTF])], shell);
  }

  // ----- in and out of blocks -----

  const TICKS := "```"

  // What follows the first line.
  function NextLines(text: string): (rest: string)
    ensures |rest| < |text| || text == ""
  {
    if text == "" then "" else if text[0] == '\n' then text[1..] else NextLines(text[1..])
  }

  // The lines that begin with three backticks: each of them opens a block, or closes one.
  function Fences(text: string): nat
    decreases |text|
  {
    if text == "" then 0 else (if TICKS <= text then 1 else 0) + Fences(NextLines(text))
  }

  // The text ends outside of any block.
  predicate Outside(text: string) {
    Fences(text) % 2 == 0
  }

  lemma {:induction false} NextLinesAppend(a: string, b: string)
    requires '\n' in a
    ensures NextLines(a + b) == NextLines(a) + b
  {
    assert (a + b)[1..] == a[1..] + b;
    if a[0] != '\n' { NextLinesAppend(a[1..], b); }
  }

  lemma {:induction false} NextLinesEnd(a: string)
    requires a != "" && EndsItsLine(a)
    ensures EndsItsLine(NextLines(a))
  {
    if a[0] != '\n' { NextLinesEnd(a[1..]); }
  }

  // Texts of whole lines, put together.
  lemma {:induction false} FencesAppend(a: string, b: string)
    requires EndsItsLine(a)
    ensures Fences(a + b) == Fences(a) + Fences(b)
    decreases |a|
  {
    if a == "" {
      assert a + b == b;
    } else {
      NextLinesAppend(a, b);
      NextLinesEnd(a);
      FencesAppend(NextLines(a), b);
      TicksAreWithin(a, b);
    }
  }

  lemma TicksAreWithin(a: string, b: string)
    requires a != "" && EndsItsLine(a)
    ensures TICKS <= a + b <==> TICKS <= a
  {
    var last := |a| - 1;
    assert (a + b)[last] == a[last] == '\n';
    if TICKS <= a + b {
      assert (a + b)[0] == (a + b)[1] == (a + b)[2] == '`';
    }
  }

  // What stands between the opening line of a command and its end.
  function Inside(tc: ToolCall, r: ShellResult): string
    requires Executes(tc)
  {
    "$ " + tc.command.value + "\n" + r.output + FENCE
  }

  // The lines of the command and of its output leave the block, with the closing fence.
  predicate Balanced(tc: ToolCall, r: ShellResult)
    requires Executes(tc)
  {
    Fences(Inside(tc, r)) % 2 == 1
  }

  lemma EchoFences(before: string, tc: ToolCall, r: ShellResult)
    requires Executes(tc) && EndsItsLine(before)
    ensures Fences(before + Shown(Echo(tc, r))) == Fences(before) + 1 + Fences(Inside(tc, r))
    ensures EndsItsLine(before + Shown(Echo(tc, r)))
  {
    EchoText(tc, r);
    var first := "\n```bash\n";
    assert Opened(tc) + r.output + FENCE == first + Inside(tc, r);
    FencesAppend(before, first + Inside(tc, r));
    FencesAppend(first, Inside(tc, r));
    OpeningIsOneFence();
    var all := before + (first + Inside(tc, r));
    assert all[|all| - 1] == FENCE[|FENCE| - 1] == '\n';
  }

  lemma OneLine(a: string)
    requires '\n' !in a
    ensures Fences(a + "\n") == if TICKS <= a + "\n" then 1 else 0
  {
    SkipsLine(a, "");
    assert a + "\n" + "" == a + "\n";
    assert Fences("") == 0;
  }

  lemma OpeningIsOneFence()
    ensures Fences("\n```bash\n") == 1
  {
    assert "\n```bash\n" == "\n" + "```bash\n" && "" + "\n" == "\n" && "```bash" + "\n" == "```bash\n";
    assert !(TICKS <= "\n") && TICKS <= "```bash\n";
    hide Fences, NextLines;
    FencesAppend("\n", "```bash\n");
    OneLine("");
    OneLine("```bash");
  }

  lemma {:induction false} SkipsLine(a: string, b: string)
    requires '\n' !in a
    ensures NextLines(a + "\n" + b) == b
  {
    assert (a + "\n" + b) != "";
    if a != "" {
      assert (a + "\n" + b)[1..] == a[1..] + "\n" + b;
      SkipsLine(a[1..], b);
    } else {
      assert (a + "\n" + b)[1..] == b;
    }
  }

  // What has been shown before the j-th tool call of the i-th reply.
  function ShownBefore(i: nat, j: nat, replies: seq<Reply>, shell: Shell): string
    requires i < |replies| && replies[i].Answer? && j <= |replies[i].toolCalls|
  {
    Shown(EventsBefore(i, replies, shell)) + Shown(Echoes(replies[i].toolCalls, j, i, shell))
  }

  lemma OneMoreCall(i: nat, j: nat, replies: seq<Reply>, shell: Shell)
    requires i < |replies| && replies[i].Answer? && j < |replies[i].toolCalls|
    requires EndsItsLine(ShownBefore(i, j, replies, shell))
    ensures EndsItsLine(ShownBefore(i, j + 1, replies, shell))
    ensures var tc := replies[i].toolCalls[j];
      Fences(ShownBefore(i, j + 1, replies, shell)) == Fences(ShownBefore(i, j, replies, shell))
        + if Executes(tc) then 1 + Fences(Inside(tc, shell(i, j))) else 0
  {
    var calls := replies[i].toolCalls;
    var echo := Echo(calls[j], shell(i, j));
    assert Echoes(calls, j + 1, i, shell) == Echoes(calls, j, i, shell) + echo;
    EchoOfOther(calls[j], shell(i, j));
    hide Fences, Shown, Inside, EventsBefore, Echo, Echoes;
    ShownAppend(Echoes(calls, j, i, shell), echo);
    Reassociated3(Shown(EventsBefore(i, replies, shell)), Shown(Echoes(calls, j, i, shell)), Shown(echo));
    if Executes(calls[j]) { EchoFences(ShownBefore(i, j, replies, shell), calls[j], shell(i, j)); }
  }

  lemma EchoOfOther(tc: ToolCall, r: ShellResult)
    ensures !Executes(tc) ==> Shown(Echo(tc, r)) == ""
  {
  }

  lemma Reassociated3(a: string, b: string, c: string)
    ensures a + (b + c) == a + b + c
    ensures c == "" ==> a + b + c == a + b
  {
  }

  // Every point between two tool calls lies outside of any block.
  ghost predicate AlwaysOutside(n: nat, replies: seq<Reply>, shell: Shell) {
    AllContinue(n, replies) &&
    forall i, j :: 0 <= i < n && 0 <= j <= |replies[i].toolCalls| ==> OutsideBefore(i, j, replies, shell)
  }

  ghost predicate OutsideBefore(i: nat, j: nat, replies: seq<Reply>, shell: Shell)
    requires i < |replies| && replies[i].Answer? && j <= |replies[i].toolCalls|
  {
    Outside(ShownBefore(i, j, replies, shell))
  }

  ghost predicate AllBalanced(n: nat, replies: seq<Reply>, shell: Shell)
    requires n <= |replies|
  {
    forall i: nat, j: nat :: IsCommand(i, j, n, replies) ==> Balanced(replies[i].toolCalls[j], shell(i, j))
  }

  lemma {:induction false} LinesEnd(i: nat, j: nat, replies: seq<Reply>, shell: Shell)
    requires i < |replies| && AllContinue(i + 1, replies) && j <= |replies[i].toolCalls|
    ensures EndsItsLine(ShownBefore(i, j, replies, shell))
    decreases i, j
  {
    hide ShownBefore, Fences;
    if j > 0 {
      LinesEnd(i, j - 1, replies, shell);
      OneMoreCall(i, j - 1, replies, shell);
    } else {
      NextReply(i, replies, shell);
      if i > 0 { LinesEnd(i - 1, |replies[i - 1].toolCalls|, replies, shell); }
    }
  }

  // The point before a reply's first call is the one after the last call of the reply before.
  lemma NextReply(i: nat, replies: seq<Reply>, shell: Shell)
    requires i < |replies| && AllContinue(i + 1, replies)
    ensures ShownBefore(i, 0, replies, shell)
         == if i == 0 then "" else ShownBefore(i - 1, |replies[i - 1].toolCalls|, replies, shell)
  {
    hide ShownBefore, Shown, EventsBefore, Echoes;
    FirstCall(i, replies, shell);
    if i == 0 { FirstReply(replies, shell); } else { LastCall(i - 1, replies, shell); }
  }

  lemma LastCall(i: nat, replies: seq<Reply>, shell: Shell)
    requires i < |replies| && replies[i].Answer?
    ensures ShownBefore(i, |replies[i].toolCalls|, replies, shell) == Shown(EventsBefore(i + 1, replies, shell))
  {
    hide Shown, EventsBefore, Echoes;
    OneMoreStep(i, replies, shell);
  }

  lemma FirstCall(i: nat, replies: seq<Reply>, shell: Shell)
    requires i < |replies| && replies[i].Answer?
    ensures ShownBefore(i, 0, replies, shell) == Shown(EventsBefore(i, replies, shell))
  {
    assert Echoes(replies[i].toolCalls, 0, i, shell) == [] && Shown([]) == "";
    hide Shown, EventsBefore, Echoes;
    Reassociated3(Shown(EventsBefore(i, replies, shell)), "", "");
  }

  lemma FirstReply(replies: seq<Reply>, shell: Shell)
    ensures Shown(EventsBefore(0, replies, shell)) == ""
  {
    assert EventsBefore(0, replies, shell) == [STARTED];
    ShownOne(STARTED);
    hide Shown, EventsBefore;
  }

  lemma {:induction false} BalancedIsOutside(n: nat, i: nat, j: nat, replies: seq<Reply>, shell: Shell)
    requires n <= |replies| && AllContinue(n, replies) && AllBalanced(n, replies, shell)
    requires i < n && j <= |replies[i].toolCalls|
    ensures OutsideBefore(i, j, replies, shell)
    decreases i, j
  {
    hide ShownBefore, Fences, Balanced;
    if j > 0 {
      BalancedIsOutside(n, i, j - 1, replies, shell);
      LinesEnd(i, j - 1, replies, shell);
      OneMoreCall(i, j - 1, replies, shell);
      assert Executes(replies[i].toolCalls[j - 1]) ==> IsCommand(i, j - 1, n, replies);
      BalancedIsOdd(i, j - 1, replies, shell);
    } else {
      NextReply(i, replies, shell);
      NothingIsOutside();
      if i > 0 { BalancedIsOutside(n, i - 1, |replies[i - 1].toolCalls|, replies, shell); }
    }
  }

  lemma NothingIsOutside()
    ensures Fences("") == 0
  {
  }

  lemma BalancedIsOdd(i: nat, j: nat, replies: seq<Reply>, shell: Shell)
    requires i < |replies| && replies[i].Answer? && j < |replies[i].toolCalls|
    ensures var tc := replies[i].toolCalls[j];
      Executes(tc) ==> (Balanced(tc, shell(i, j)) <==> Fences(Inside(tc, shell(i, j))) % 2 == 1)
  {
  }

  lemma OutsideIsBalanced(n: nat, i: nat, j: nat, replies: seq<Reply>, shell: Shell)
    requires n <= |replies| && AlwaysOutside(n, replies, shell) && IsCommand(i, j, n, replies)
    ensures Balanced(replies[i].toolCalls[j], shell(i, j))
  {
    hide ShownBefore, Fences, Balanced;
    LinesEnd(i, j, replies, shell);
    OneMoreCall(i, j, replies, shell);
    BalancedIsOdd(i, j, replies, shell);
    assert OutsideBefore(i, j, replies, shell) && OutsideBefore(i, j + 1, replies, shell);
  }

  // Between the commands of a run the text is always outside of any block if and only if every
  // command is balanced.
  lemma AlwaysOutsideIff(n: nat, replies: seq<Reply>, shell: Shell)
    requires n <= |replies| && AllContinue(n, replies)
    ensures AlwaysOutside(n, replies, shell) <==> AllBalanced(n, replies, shell)
  {
    hide Balanced, OutsideBefore;
    if AllBalanced(n, replies, shell) {
      forall i, j | 0 <= i < n && 0 <= j <= |replies[i].toolCalls| ensures OutsideBefore(i, j, replies, shell) {
        BalancedIsOutside(n, i, j, replies, shell);
      }
    } else if AlwaysOutside(n, replies, shell) {
      forall i: nat, j: nat | IsCommand(i, j, n, replies) ensures Balanced(replies[i].toolCalls[j], shell(i, j)) {
        OutsideIsBalanced(n, i, j, replies, shell);
      }
    }
  }

  // ----- when a command is balanced -----

  // The last line, if it was not ended.
  function LastLine(text: string): string
    decreases |text|
  {
    if '\n' in text then LastLine(NextLines(text)) else text
  }

  // The closing fence makes a fence line: it starts a line, or follows one or two backticks.
  predicate FenceCounts(output: string) {
    LastLine(output) in {"", "`", "``"}
  }

  lemma {:induction false} FencesOfOutput(output: string)
    ensures Fences(output + FENCE) == Fences(output) + if FenceCounts(output) then 1 else 0
    decreases |output|
  {
    if '\n' in output {
      NextLinesAppend(output, FENCE);
      FencesOfOutput(NextLines(output));
      TicksInFirstLine(output, FENCE);
    } else {
      LastLineFences(output);
    }
  }

  lemma TicksInFirstLine(a: string, b: string)
    requires '\n' in a
    ensures TICKS <= a + b <==> TICKS <= a
  {
    if |a| < |TICKS| && TICKS <= a + b { TicksHaveNoLine(a, a + b); }
  }

  lemma TicksHaveNoLine(a: string, text: string)
    requires TICKS <= text && a <= text && |a| <= |TICKS|
    ensures '\n' !in a
  {
    assert a == TICKS[..|a|];
  }

  lemma LastLineFences(a: string)
    requires '\n' !in a
    ensures Fences(a + FENCE) == Fences(a) + if a in {"", "`", "``"} then 1 else 0
  {
    assert a + FENCE == a + TICKS + "\n" + "";
    SkipsLine(a + TICKS, "");
    assert Fences("") == 0;
    NoNextLines(a);
    ShortLines(a);
  }

  lemma ShortLines(a: string)
    ensures TICKS <= a + FENCE <==> TICKS <= a || a in {"", "`", "``"}
  {
    if |a| < |TICKS| {
      assert a == (a + FENCE)[..|a|];
      assert TICKS <= a + FENCE ==> a == TICKS[..|a|];
      assert TICKS[..0] == "" && TICKS[..1] == "`" && TICKS[..2] == "``";
    } else {
      assert (a + FENCE)[..|TICKS|] == a[..|TICKS|];
    }
  }

  lemma {:induction false} NoNextLines(a: string)
    requires '\n' !in a
    ensures NextLines(a) == ""
  {
    if a != "" { NoNextLines(a[1..]); }
  }

  // A command is balanced if and only if the lines of the command and of its output that begin
  // with three backticks are even in number and the closing fence makes one more, or they are
  // odd and it does not.
  lemma BalancedIff(tc: ToolCall, r: ShellResult)
    requires Executes(tc)
    ensures Balanced(tc, r) <==>
      ((Fences("$ " + tc.command.value + "\n") + Fences(r.output)) % 2 == 0 <==> FenceCounts(r.output))
  {
    var command := "$ " + tc.command.value + "\n";
    FencesAppend(command, r.output + FENCE);
    FencesOfOutput(r.output);
    assert Inside(tc, r) == command + (r.output + FENCE);
    hide Fences, FenceCounts;
  }

  // Neither an output without a final newline nor one that is a fence line is balanced.
  lemma UnbalancedOutputs()
    ensures !Balanced(PRINTF, ShellResult("foo", None))
    ensures !Balanced(PRINTF, ShellResult("```\n", None))
  {
    hide Fences, FenceCounts, Balanced;
    BalancedIff(PRINTF, ShellResult("foo", None));
    BalancedIff(PRINTF, ShellResult("```\n", None));
    PrintfIsPlain();
    FooIsOpen();
    FenceIsOne();
  }

  lemma FooIsOpen()
    ensures Fences("foo") == 0 && !FenceCounts("foo")
  {
    NoNextLines("foo");
    assert Fences("") == 0;
    assert LastLine("foo") == "foo";
  }

  lemma FenceIsOne()
    ensures Fences("```\n") == 1 && FenceCounts("```\n")
  {
    OneLine("```");
    assert "```" + "\n" == "```\n" && "```" + "\n" + "" == "```\n";
    SkipsLine("```", "");
    assert LastLine("") == "";
    assert LastLine("```\n") == LastLine(NextLines("```\n"));
    hide Fences;
  }

  lemma PrintfIsPlain()
    ensures Fences("$ " + PRINTF.command.value + "\n") == 0
  {
    var line := "$ " + PRINTF.command.value;
    assert line == "$ printf foo";
    OneLine(line);
    hide Fences;
  }
}

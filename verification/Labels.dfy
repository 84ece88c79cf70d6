/**
 The labels that tie a network policy to a pod (internal/sandbox/networkpolicy.go:56-84
 and 136-157, internal/sandbox/podspec.go:118-127).
 */
module Labels {
  // ----- strings.TrimSpace and friends -----

  // unicode.IsSpace.
  predicate IsSpace(c: char) {
    '\t' <= c <= '\r' || c == ' ' || c == '\U{85}' || c == '\U{A0}' || c == '\U{1680}'
    || '\U{2000}' <= c <= '\U{200A}' || c == '\U{2028}' || c == '\U{2029}' || c == '\U{202F}'
    || c == '\U{205F}' || c == '\U{3000}'
  }

  predicate IsEdge(c: char) {
    c == '-' || c == '.'
  }

  // What is trimmed.
  datatype CharSet = Spaces | Edges | EdgesOrSpaces

  predicate In(c: char, cs: CharSet) {
    match cs
    case Spaces => IsSpace(c)
    case Edges => IsEdge(c)
    case EdgesOrSpaces => IsEdge(c) || IsSpace(c)
  }

  function TrimLeft(s: string, cs: CharSet): (r: string)
    ensures |r| <= |s| && r == s[|s| - |r|..] && (r != [] ==> !In(r[0], cs))
  {
    if s != [] && In(s[0], cs) then TrimLeft(s[1..], cs) else s
  }

  function TrimRight(s: string, cs: CharSet): (r: string)
    ensures r <= s && (r != [] ==> !In(r[|r| - 1], cs))
  {
    if s != [] && In(s[|s| - 1], cs) then TrimRight(s[..|s| - 1], cs) else s
  }

  function Trim(s: string, cs: CharSet): string {
    TrimRight(TrimLeft(s, cs), cs)
  }

  function TrimSpace(s: string): string {
    Trim(s, Spaces)
  }

  lemma TrimmedAlready(s: string, cs: CharSet)
    requires s != [] ==> !In(s[0], cs) && !In(s[|s| - 1], cs)
    ensures Trim(s, cs) == s
  {
  }

  lemma TrimIsIdempotent(s: string, cs: CharSet)
    ensures Trim(Trim(s, cs), cs) == Trim(s, cs)
  {
    var t := Trim(s, cs);
    if t != [] { assert t[0] == TrimLeft(s, cs)[0]; }
    TrimmedAlready(t, cs);
  }

  // ----- labelValue -----

  // unicode.ToLower: all that is used of it is that it keeps these characters.
  ghost predicate KeepsLabelChars(lower: char -> char) {
    forall c :: IsLabelChar(c) ==> lower(c) == c
  }

  predicate IsAlnum(c: char) {
    'a' <= c <= 'z' || '0' <= c <= '9'
  }

  predicate IsLabelChar(c: char) {
    IsAlnum(c) || c == '-' || c == '.'
  }

  function Lowered(s: string, lower: char -> char): string {
    seq(|s|, i requires 0 <= i < |s| => lower(s[i]))
  }

  // Every other character becomes a dash, unless a dash is already there.
  function Dashed(s: string): (r: string)
    ensures forall i :: 0 <= i < |r| ==> IsLabelChar(r[i])
  {
    if s == [] then [] else AddDashed(Dashed(s[..|s| - 1]), s[|s| - 1])
  }

  function AddDashed(buf: string, c: char): string {
    if IsLabelChar(c) then buf + [c]
    else if buf == [] || buf[|buf| - 1] != '-' then buf + ['-']
    else buf
  }

  const MAX_LABEL: nat := 63

  function LabelValue(value: string, lower: char -> char): string {
    var v := Trim(Dashed(TrimSpace(Lowered(value, lower))), Edges);
    if |v| > MAX_LABEL then TrimRight(v[..MAX_LABEL], EdgesOrSpaces) else v
  }

  lemma NothingToLabel()
    ensures Trim(Dashed(""), Edges) == ""
  {
  }

  method ComputeLabelValue(value: string, lower: char -> char) returns (v: string)
    ensures v == LabelValue(value, lower)
  {
    hide TrimSpace, Trim, TrimRight, Dashed, Lowered;
    v := TrimSpace(Lowered(value, lower));
    if v == "" {
      NothingToLabel();
      return;
    }
    var buf := FillBuffer(v);
    v := Trim(buf, Edges);
    if v == "" {
      return;
    }
    if |v| > MAX_LABEL {
      v := TrimRight(v[..MAX_LABEL], EdgesOrSpaces);
    }
  }

  lemma DashedStep(v: string, i: nat)
    requires i < |v|
    ensures Dashed(v[..i + 1]) == AddDashed(Dashed(v[..i]), v[i])
  {
    assert v[..i + 1][..i] == v[..i];
  }

  // networkpolicy.go:141-148.
  method FillBuffer(v: string) returns (buf: string)
    ensures buf == Dashed(v)
  {
    assert v[..0] == [] && v[..|v|] == v;
    buf := "";
    assert buf == Dashed(v[..0]);
    hide Dashed;
    for i := 0 to |v|
      invariant buf == Dashed(v[..i])
    {
      DashedStep(v, i);
      var r := v[i];
      if ('a' <= r <= 'z') || ('0' <= r <= '9') || r == '-' || r == '.' {
        buf := buf + [r];
      } else if |buf| == 0 || buf[|buf| - 1] != '-' {
        buf := buf + ['-'];
      }
    }
  }

  // What Kubernetes takes as a label value, in lower case and without underscores.
  predicate ValidLabel(v: string) {
    && 1 <= |v| <= MAX_LABEL
    && IsAlnum(v[0]) && IsAlnum(v[|v| - 1])
    && forall i :: 0 <= i < |v| ==> IsLabelChar(v[i])
  }

  lemma {:induction false} TrimRightKeepsAFirst(s: string, cs: CharSet)
    requires s != [] && !In(s[0], cs)
    ensures TrimRight(s, cs) != []
  {
    if In(s[|s| - 1], cs) { TrimRightKeepsAFirst(s[..|s| - 1], cs); }
  }

  lemma TrimmedEdges(s: string, cs: CharSet)
    ensures var t := Trim(s, cs);
      && |t| <= |s|
      && (t != [] ==> !In(t[0], cs) && !In(t[|t| - 1], cs))
      && forall i :: 0 <= i < |t| ==> t[i] in s
  {
    var l := TrimLeft(s, cs);
    var t := TrimRight(l, cs);
    hide TrimLeft, TrimRight;
    assert forall i :: 0 <= i < |t| ==> t[i] == s[|s| - |l| + i];
  }

  lemma CutLabelIsValid(v: string)
    requires |v| > MAX_LABEL && IsAlnum(v[0]) && forall i :: 0 <= i < |v| ==> IsLabelChar(v[i])
    ensures ValidLabel(TrimRight(v[..MAX_LABEL], EdgesOrSpaces))
  {
    var cut := v[..MAX_LABEL];
    assert !In(cut[0], EdgesOrSpaces);
    TrimRightKeepsAFirst(cut, EdgesOrSpaces);
    var t := TrimRight(cut, EdgesOrSpaces);
    hide TrimRight, IsSpace;
    assert t[0] == v[0] && forall i :: 0 <= i < |t| ==> t[i] == v[i];
  }

  // Whatever the input, the result is empty or a valid label value.
  lemma LabelValueIsValid(value: string, lower: char -> char)
    ensures LabelValue(value, lower) == "" || ValidLabel(LabelValue(value, lower))
  {
    hide IsSpace, Trim, Lowered, TrimSpace, TrimRight, TrimLeft;
    var d := Dashed(TrimSpace(Lowered(value, lower)));
    TrimmedEdges(d, Edges);
    var v := Trim(d, Edges);
    hide Dashed;
    assert forall i :: 0 <= i < |v| ==> IsLabelChar(v[i]);
    if |v| > MAX_LABEL {
      CutLabelIsValid(v);
    }
  }

  lemma {:induction false} DashedKeeps(s: string)
    requires forall i :: 0 <= i < |s| ==> IsLabelChar(s[i])
    ensures Dashed(s) == s
  {
    if s != [] {
      DashedKeeps(s[..|s| - 1]);
      assert s == s[..|s| - 1] + [s[|s| - 1]];
    }
  }

  lemma EdgesAreNoSpace(v: string)
    requires ValidLabel(v)
    ensures !IsSpace(v[0]) && !IsSpace(v[|v| - 1]) && !IsEdge(v[0]) && !IsEdge(v[|v| - 1])
  {
  }

  lemma LoweredKeeps(v: string, lower: char -> char)
    requires KeepsLabelChars(lower) && forall i :: 0 <= i < |v| ==> IsLabelChar(v[i])
    ensures Lowered(v, lower) == v
  {
  }

  // The label values are exactly the fixed points; so labelValue is idempotent.
  lemma LabelValueKeepsIff(v: string, lower: char -> char)
    requires KeepsLabelChars(lower)
    ensures LabelValue(v, lower) == v <==> v == "" || ValidLabel(v)
  {
    hide Lowered, Trim, Dashed, IsSpace, IsEdge, KeepsLabelChars, TrimRight;
    if v == "" || ValidLabel(v) {
      if v != "" { EdgesAreNoSpace(v); }
      LoweredKeeps(v, lower);
      TrimmedAlready(v, Spaces);
      DashedKeeps(v);
      TrimmedAlready(v, Edges);
    } else {
      LabelValueIsValid(v, lower);
    }
  }

  lemma LabelValueIsIdempotent(value: string, lower: char -> char)
    requires KeepsLabelChars(lower)
    ensures LabelValue(LabelValue(value, lower), lower) == LabelValue(value, lower)
  {
    LabelValueIsValid(value, lower);
    LabelValueKeepsIff(LabelValue(value, lower), lower);
  }

  // ----- when there is no label -----

  predicate HasAlnum(s: string) {
    exists i :: 0 <= i < |s| && IsAlnum(s[i])
  }

  lemma {:induction false} TrimLeftKeepsAlnum(s: string, cs: CharSet)
    requires forall c :: IsAlnum(c) ==> !In(c, cs)
    ensures HasAlnum(TrimLeft(s, cs)) <==> HasAlnum(s)
  {
    if s != [] && In(s[0], cs) {
      TrimLeftKeepsAlnum(s[1..], cs);
      AlnumOfTail(s);
      hide HasAlnum;
    }
  }

  lemma AlnumOfTail(s: string)
    requires s != []
    ensures HasAlnum(s) <==> IsAlnum(s[0]) || HasAlnum(s[1..])
  {
    var tail := s[1..];
    if HasAlnum(s) {
      var i :| 0 <= i < |s| && IsAlnum(s[i]);
      if i > 0 { assert tail[i - 1] == s[i]; }
    }
    if HasAlnum(tail) {
      var i :| 0 <= i < |tail| && IsAlnum(tail[i]);
      assert s[i + 1] == tail[i];
    }
  }

  lemma {:induction false} TrimRightKeepsAlnum(s: string, cs: CharSet)
    requires forall c :: IsAlnum(c) ==> !In(c, cs)
    ensures HasAlnum(TrimRight(s, cs)) <==> HasAlnum(s)
  {
    if s != [] && In(s[|s| - 1], cs) {
      TrimRightKeepsAlnum(s[..|s| - 1], cs);
      AlnumOfMore(s[..|s| - 1], s[|s| - 1]);
      assert s == s[..|s| - 1] + [s[|s| - 1]];
      hide HasAlnum;
    }
  }

  lemma TrimKeepsAlnum(s: string, cs: CharSet)
    requires forall c :: IsAlnum(c) ==> !In(c, cs)
    ensures HasAlnum(Trim(s, cs)) <==> HasAlnum(s)
  {
    hide HasAlnum, TrimLeft, TrimRight;
    TrimLeftKeepsAlnum(s, cs);
    TrimRightKeepsAlnum(TrimLeft(s, cs), cs);
  }

  lemma {:induction false} DashedKeepsAlnum(s: string)
    ensures HasAlnum(Dashed(s)) <==> HasAlnum(s)
  {
    if s != [] {
      var front, c := s[..|s| - 1], s[|s| - 1];
      DashedKeepsAlnum(front);
      AlnumOfMore(front, c);
      AlnumOfMore(Dashed(front), c);
      AlnumOfMore(Dashed(front), '-');
      assert s == front + [c];
      hide HasAlnum;
    }
  }

  lemma AlnumOfMore(s: string, c: char)
    ensures HasAlnum(s + [c]) <==> HasAlnum(s) || IsAlnum(c)
  {
    assert forall i :: 0 <= i < |s| ==> (s + [c])[i] == s[i];
    assert (s + [c])[|s|] == c;
  }

  // A label is empty if and only if no character of the id is a letter or a digit of ASCII
  // once it is in lower case.
  lemma LabelIsEmptyIff(value: string, lower: char -> char)
    ensures LabelValue(value, lower) == "" <==> !HasAlnum(Lowered(value, lower))
  {
    SpaceIsNotAlnum();
    var l := Lowered(value, lower);
    var d := Dashed(TrimSpace(l));
    TrimKeepsAlnum(l, Spaces);
    DashedKeepsAlnum(TrimSpace(l));
    TrimKeepsAlnum(d, Edges);
    LabelValueIsValid(value, lower);
    var v := Trim(d, Edges);
    TrimmedEdges(d, Edges);
    hide Trim, TrimRight, Dashed, Lowered, IsSpace;
    if v != "" {
      assert v[0] in d && IsLabelChar(v[0]) && IsAlnum(v[0]);
      if |v| > MAX_LABEL { CutLabelIsValid(v); }
    }
  }

  lemma SpaceIsNotAlnum()
    ensures forall c :: IsAlnum(c) ==> !IsSpace(c) && !IsEdge(c)
  {
  }

  // What newID returns (internal/store/store.go:730-736).
  predicate IsStoreId(id: string) {
    |id| == 32 && forall i :: 0 <= i < |id| ==> 'a' <= id[i] <= 'f' || '0' <= id[i] <= '9'
  }

  // ----- labels and selectors -----

  const AGENT_ID := "shclop.io/agent-id"
  const RUNTIME := "shclop.io/runtime-flavor"
  const SANDBOX_ID := "shclop.io/sandbox-id"
  const OWNER_ID := "shclop.io/owner-id"

  function WithLabel(labels: map<string, string>, key: string, v: string): map<string, string> {
    if v == "" then labels else labels[key := v]
  }

  function RuntimeLabels(agentId: string, runtime: string, sandboxId: string, lower: char -> char): map<string, string> {
    var fixed := map["app.kubernetes.io/name" := "shclop-agent-runtime", "app.kubernetes.io/component" := "agent-runtime"];
    var withAgent := WithLabel(fixed, AGENT_ID, LabelValue(agentId, lower));
    WithLabel(WithLabel(withAgent, RUNTIME, LabelValue(runtime, lower)), SANDBOX_ID, LabelValue(sandboxId, lower))
  }

  function PodLabels(agentId: string, runtime: string, sandboxId: string, owner: string, lower: char -> char): map<string, string> {
    WithLabel(RuntimeLabels(agentId, runtime, sandboxId, lower), OWNER_ID, LabelValue(owner, lower))
  }

  function Selector(agentId: string, lower: char -> char): map<string, string> {
    map[AGENT_ID := LabelValue(agentId, lower)]
  }

  // A pod is selected when it has every label of the selector.
  predicate Matches(selector: map<string, string>, labels: map<string, string>) {
    forall key :: key in selector ==> key in labels && labels[key] == selector[key]
  }

  // An agent's policy selects exactly the pods of the agents with the same label value, and
  // none at all, not even its own pod, if that value is empty.
  lemma SelectsIff(a: string, b: string, runtime: string, sandboxId: string, owner: string, lower: char -> char)
    ensures Matches(Selector(a, lower), PodLabels(b, runtime, sandboxId, owner, lower))
      <==> LabelValue(b, lower) != "" && LabelValue(a, lower) == LabelValue(b, lower)
  {
    hide LabelValue;
    var labels := PodLabels(b, runtime, sandboxId, owner, lower);
    LabelKeysDiffer();
    assert AGENT_ID in labels <==> LabelValue(b, lower) != "";
    assert AGENT_ID in labels ==> labels[AGENT_ID] == LabelValue(b, lower);
    assert AGENT_ID in Selector(a, lower);
  }

  lemma LabelKeysDiffer()
    ensures AGENT_ID != RUNTIME && AGENT_ID != SANDBOX_ID && AGENT_ID != OWNER_ID
    ensures AGENT_ID != "app.kubernetes.io/name" && AGENT_ID != "app.kubernetes.io/component"
  {
    assert AGENT_ID[10] == 'a' && RUNTIME[10] == 'r' && SANDBOX_ID[10] == 's' && OWNER_ID[10] == 'o';
    assert AGENT_ID[0] != "app.kubernetes.io/name"[0] && AGENT_ID[0] != "app.kubernetes.io/component"[0];
  }

  // For the ids the store gives out: its own pod and no other agent's.
  lemma PolicySelectsOwnPod(a: string, b: string, runtime: string, sandboxId: string, owner: string, lower: char -> char)
    requires KeepsLabelChars(lower) && IsStoreId(a) && IsStoreId(b)
    ensures Matches(Selector(a, lower), PodLabels(b, runtime, sandboxId, owner, lower)) <==> a == b
  {
    SelectsIff(a, b, runtime, sandboxId, owner, lower);
    StoreIdsAreLabels(a);
    StoreIdsAreLabels(b);
    LabelValueKeepsIff(a, lower);
    LabelValueKeepsIff(b, lower);
    hide LabelValue, Selector, PodLabels, Matches, KeepsLabelChars, IsStoreId, ValidLabel;
  }

  // An agent's policy selects its own pod if and only if its id has a letter or a digit.
  lemma SelectsOwnPodIff(id: string, runtime: string, sandboxId: string, owner: string, lower: char -> char)
    ensures Matches(Selector(id, lower), PodLabels(id, runtime, sandboxId, owner, lower))
      <==> HasAlnum(Lowered(id, lower))
  {
    SelectsIff(id, id, runtime, sandboxId, owner, lower);
    LabelIsEmptyIff(id, lower);
    hide LabelValue, Selector, PodLabels, Matches, HasAlnum, Lowered;
  }

  // The agent "_" is left without a policy: its own selects no pod, neither its own nor
  // any other agent's.
  lemma UnderscoreIsUnguarded(b: string, runtime: string, sandboxId: string, owner: string, lower: char -> char)
    requires lower('_') == '_'
    ensures !Matches(Selector("_", lower), PodLabels(b, runtime, sandboxId, owner, lower))
  {
    assert !HasAlnum(Lowered("_", lower));
    LabelIsEmptyIff("_", lower);
    SelectsIff("_", b, runtime, sandboxId, owner, lower);
    hide LabelValue, Selector, PodLabels, Matches, HasAlnum, Lowered;
  }

  lemma StoreIdsAreLabels(id: string)
    requires IsStoreId(id)
    ensures ValidLabel(id) && id != ""
  {
  }
}

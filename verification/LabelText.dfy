/**
 What labelValue (internal/sandbox/networkpolicy.go:136-157) keeps of a text: words stay, what
 stands between them becomes one dash, the result is cut no shorter than it must be, and no letter
 or digit is changed, moved or left out before the cut.
 */
module LabelText {
  import opened Labels

  // ----- words -----

  predicate IsWord(w: string) {
    w != "" && IsAlnum(w[0]) && IsAlnum(w[|w| - 1]) && forall i :: 0 <= i < |w| ==> IsLabelChar(w[i])
  }

  // No character of it goes into a label.
  predicate IsGap(gap: string) {
    gap != "" && forall i :: 0 <= i < |gap| ==> !IsLabelChar(gap[i])
  }

  predicate AreWords(words: seq<string>, gaps: seq<string>, lower: char -> char) {
    && |words| == |gaps| + 1
    && (forall i :: 0 <= i < |words| ==> IsWord(words[i]))
    && (forall i :: 0 <= i < |gaps| ==> IsGap(Lowered(gaps[i], lower)))
  }

  // The words with the gaps between them.
  function Written(words: seq<string>, gaps: seq<string>): string
    requires |words| == |gaps| + 1
    decreases |gaps|
  {
    if gaps == [] then words[0]
    else Written(words[..|words| - 1], gaps[..|gaps| - 1]) + gaps[|gaps| - 1] + words[|words| - 1]
  }

  // The words joined by dashes.
  function Joined(words: seq<string>): string
    requires words != []
  {
    if |words| == 1 then words[0] else Joined(words[..|words| - 1]) + "-" + words[|words| - 1]
  }

  lemma {:induction false} DashedMore(s: string, w: string)
    requires forall i :: 0 <= i < |w| ==> IsLabelChar(w[i])
    ensures Dashed(s + w) == Dashed(s) + w
    decreases |w|
  {
    if w == "" {
      assert s + w == s && Dashed(s) + w == Dashed(s);
    } else {
      var front, c := w[..|w| - 1], w[|w| - 1];
      DashedMore(s, front);
      assert (s + w)[..|s + w| - 1] == s + front && (s + w)[|s + w| - 1] == c;
      assert w == front + [c];
    }
  }

  lemma {:induction false} DashedGap(s: string, gap: string)
    requires Dashed(s) != "" && Dashed(s)[|Dashed(s)| - 1] != '-'
    requires IsGap(gap)
    ensures Dashed(s + gap) == Dashed(s) + "-"
    decreases |gap|
  {
    var front, c := gap[..|gap| - 1], gap[|gap| - 1];
    assert (s + gap)[..|s + gap| - 1] == s + front && (s + gap)[|s + gap| - 1] == c;
    if front == "" {
      assert s + front == s;
    } else {
      DashedGap(s, front);
    }
  }

  lemma {:induction false} DashedWords(words: seq<string>, gaps: seq<string>)
    requires |words| == |gaps| + 1
    requires forall i :: 0 <= i < |words| ==> IsWord(words[i])
    requires forall i :: 0 <= i < |gaps| ==> IsGap(gaps[i])
    ensures Dashed(Written(words, gaps)) == Joined(words)
    ensures IsWord(Joined(words))
    decreases |gaps|
  {
    hide Dashed;
    if gaps == [] {
      DashedKeeps(words[0]);
    } else {
      var n := |gaps| - 1;
      var before := Written(words[..n + 1], gaps[..n]);
      DashedWords(words[..n + 1], gaps[..n]);
      DashedGap(before, gaps[n]);
      DashedMore(before + gaps[n], words[n + 1]);
      WordsJoin(Joined(words[..n + 1]), words[n + 1]);
    }
  }

  lemma WordsJoin(a: string, b: string)
    requires IsWord(a) && IsWord(b)
    ensures IsWord(a + "-" + b)
  {
    var w := a + "-" + b;
    assert w[0] == a[0] && w[|w| - 1] == b[|b| - 1];
    assert forall i :: 0 <= i < |w| ==> w[i] == if i < |a| then a[i] else if i == |a| then '-' else b[i - |a| - 1];
  }

  // ----- lower case -----

  lemma LoweredConcat(a: string, b: string, lower: char -> char)
    ensures Lowered(a + b, lower) == Lowered(a, lower) + Lowered(b, lower)
  {
  }

  function AllLowered(gaps: seq<string>, lower: char -> char): (r: seq<string>)
    ensures |r| == |gaps|
  {
    seq(|gaps|, i requires 0 <= i < |gaps| => Lowered(gaps[i], lower))
  }

  lemma {:induction false} LoweredWritten(words: seq<string>, gaps: seq<string>, lower: char -> char)
    requires KeepsLabelChars(lower) && AreWords(words, gaps, lower)
    ensures Lowered(Written(words, gaps), lower) == Written(words, AllLowered(gaps, lower))
    decreases |gaps|
  {
    LoweredKeeps(words[|gaps|], lower);
    if gaps != [] {
      var n := |gaps| - 1;
      var before := Written(words[..n + 1], gaps[..n]);
      LoweredWritten(words[..n + 1], gaps[..n], lower);
      LoweredConcat(before + gaps[n], words[n + 1], lower);
      LoweredConcat(before, gaps[n], lower);
      assert AllLowered(gaps, lower)[..n] == AllLowered(gaps[..n], lower);
      hide KeepsLabelChars, Lowered;
    }
  }

  lemma {:induction false} WrittenEnds(words: seq<string>, gaps: seq<string>)
    requires |words| == |gaps| + 1 && forall i :: 0 <= i < |words| ==> IsWord(words[i])
    ensures var s := Written(words, gaps); s != "" && IsAlnum(s[0]) && IsAlnum(s[|s| - 1])
    decreases |gaps|
  {
    if gaps != [] {
      WrittenEnds(words[..|gaps|], gaps[..|gaps| - 1]);
      var s := Written(words, gaps);
      assert s[0] == Written(words[..|gaps|], gaps[..|gaps| - 1])[0];
      assert s[|s| - 1] == words[|gaps|][|words[|gaps|]| - 1];
    }
  }

  // ----- the cut -----

  // The beginning of v that is left when it may have 63 characters: all of it, or all but the
  // dashes and dots at the end of the first 63.
  predicate IsCutOf(r: string, v: string) {
    && r <= v && |r| <= 63
    && (|v| <= 63 ==> r == v)
    && (|v| > 63 ==> forall i :: |r| <= i < 63 ==> v[i] == '-' || v[i] == '.')
    && (r != "" ==> r[|r| - 1] != '-' && r[|r| - 1] != '.')
  }

  lemma {:induction false} TrimRightCuts(s: string)
    requires forall i :: 0 <= i < |s| ==> IsLabelChar(s[i])
    ensures forall i :: |TrimRight(s, EdgesOrSpaces)| <= i < |s| ==> s[i] == '-' || s[i] == '.'
  {
    if s != "" && In(s[|s| - 1], EdgesOrSpaces) {
      TrimRightCuts(s[..|s| - 1]);
      SpaceIsNotLabel();
      assert forall i :: 0 <= i < |s| - 1 ==> s[..|s| - 1][i] == s[i];
      hide IsSpace;
    }
  }

  lemma SpaceIsNotLabel()
    ensures forall c :: IsLabelChar(c) ==> !IsSpace(c)
  {
  }

  // Words of label characters with other characters between them: the words joined by dashes,
  // and of that no more is cut off than must be.
  lemma WordsAreKept(words: seq<string>, gaps: seq<string>, lower: char -> char)
    requires KeepsLabelChars(lower) && AreWords(words, gaps, lower)
    ensures IsCutOf(LabelValue(Written(words, gaps), lower), Joined(words))
  {
    hide Dashed, Trim, TrimRight, Lowered, KeepsLabelChars, IsWord, Written, Joined, IsSpace;
    var lowered := AllLowered(gaps, lower);
    LoweredWritten(words, gaps, lower);
    GapsStay(gaps, lower);
    DashedWords(words, lowered);
    WrittenEnds(words, lowered);
    WordIsTrimmed(Written(words, lowered), Spaces);
    WordEnds(Joined(words));
    WordIsTrimmed(Joined(words), Edges);
    CutIsCut(Joined(words));
  }

  lemma GapsStay(gaps: seq<string>, lower: char -> char)
    requires forall i :: 0 <= i < |gaps| ==> IsGap(Lowered(gaps[i], lower))
    ensures forall i :: 0 <= i < |AllLowered(gaps, lower)| ==> IsGap(AllLowered(gaps, lower)[i])
  {
  }

  lemma WordEnds(w: string)
    requires IsWord(w)
    ensures w != "" && IsAlnum(w[0]) && IsAlnum(w[|w| - 1])
  {
  }

  lemma WordIsTrimmed(s: string, cs: CharSet)
    requires s != "" && IsAlnum(s[0]) && IsAlnum(s[|s| - 1]) && !cs.EdgesOrSpaces?
    ensures Trim(s, cs) == s
  {
    SpaceIsNotAlnum();
    TrimmedAlready(s, cs);
    hide Trim, IsSpace;
  }

  lemma CutIsCut(v: string)
    requires IsWord(v)
    ensures IsCutOf(if |v| > MAX_LABEL then TrimRight(v[..MAX_LABEL], EdgesOrSpaces) else v, v)
  {
    if |v| > MAX_LABEL { TrimRightCuts(v[..MAX_LABEL]); }
    hide IsSpace;
  }

  // ----- letters and digits -----

  function Alnums(s: string): string {
    if s == "" then ""
    else Alnums(s[..|s| - 1]) + if IsAlnum(s[|s| - 1]) then [s[|s| - 1]] else ""
  }

  lemma {:induction false} AlnumsConcat(a: string, b: string)
    ensures Alnums(a + b) == Alnums(a) + Alnums(b)
    decreases |b|
  {
    if b == "" {
      assert a + b == a;
    } else {
      var front := b[..|b| - 1];
      AlnumsConcat(a, front);
      assert (a + b)[..|a + b| - 1] == a + front;
    }
  }

  lemma AlnumsOne(c: char)
    ensures Alnums([c]) == if IsAlnum(c) then [c] else ""
  {
    assert [c][..0] == "";
  }

  lemma {:induction false} TrimLeftKeepsAlnums(s: string, cs: CharSet)
    requires forall c :: IsAlnum(c) ==> !In(c, cs)
    ensures Alnums(TrimLeft(s, cs)) == Alnums(s)
  {
    hide Alnums, In, IsAlnum;
    if s != "" && In(s[0], cs) {
      TrimLeftKeepsAlnums(s[1..], cs);
      assert s == [s[0]] + s[1..];
      AlnumsConcat([s[0]], s[1..]);
      AlnumsOne(s[0]);
    }
  }

  lemma {:induction false} TrimRightKeepsAlnums(s: string, cs: CharSet)
    requires forall c :: IsAlnum(c) ==> !In(c, cs)
    ensures Alnums(TrimRight(s, cs)) == Alnums(s)
  {
    if s != "" && In(s[|s| - 1], cs) { TrimRightKeepsAlnums(s[..|s| - 1], cs); }
  }

  lemma {:induction false} DashedKeepsAlnums(s: string)
    ensures Alnums(Dashed(s)) == Alnums(s) && |Dashed(s)| <= |s|
  {
    if s != "" {
      var front, c := s[..|s| - 1], s[|s| - 1];
      DashedKeepsAlnums(front);
      AlnumsConcat(Dashed(front), [c]);
      AlnumsConcat(Dashed(front), "-");
      AlnumsOne(c);
      AlnumsOne('-');
    }
  }

  // The letters and digits of a label are those of the text in lower case, in order, from the
  // first on; all of them, if the text has no more than 63 characters.
  lemma AlnumsAreKept(value: string, lower: char -> char)
    ensures Alnums(LabelValue(value, lower)) <= Alnums(Lowered(value, lower))
    ensures |value| <= 63 ==> Alnums(LabelValue(value, lower)) == Alnums(Lowered(value, lower))
  {
    hide IsSpace, Dashed, TrimLeft, TrimRight, Alnums, IsAlnum;
    SpaceIsNotAlnum();
    var l := Lowered(value, lower);
    var t := TrimSpace(l);
    var d := Dashed(t);
    var v := Trim(d, Edges);
    TrimKeepsAlnums(l, Spaces);
    DashedKeepsAlnums(t);
    TrimKeepsAlnums(d, Edges);
    TrimmedEdges(l, Spaces);
    TrimmedEdges(d, Edges);
    if |v| > MAX_LABEL {
      TrimRightKeepsAlnums(v[..MAX_LABEL], EdgesOrSpaces);
      AlnumsConcat(v[..MAX_LABEL], v[MAX_LABEL..]);
      assert v[..MAX_LABEL] + v[MAX_LABEL..] == v;
    }
  }

  lemma TrimKeepsAlnums(s: string, cs: CharSet)
    requires forall c :: IsAlnum(c) ==> !In(c, cs)
    ensures Alnums(Trim(s, cs)) == Alnums(s)
  {
    TrimLeftKeepsAlnums(s, cs);
    TrimRightKeepsAlnums(TrimLeft(s, cs), cs);
    hide Alnums, TrimLeft, TrimRight;
  }
}

/**
 The text DBRegistry.poll hashes (internal/plugins/db_registry.go:110-120): the entries in
 the order of their ids, written "id:revision" and joined by semicolons.
 */
module SnapshotText {
  import opened Plugins

  datatype Entry = Entry(id: string, rev: int)

  // ----- the order of the ids -----

  // Go's < on strings.
  predicate Less(a: string, b: string) {
    b != [] && (a == [] || a[0] < b[0] || (a[0] == b[0] && Less(a[1..], b[1..])))
  }

  lemma {:induction false} LessIsTransitive(a: string, b: string, c: string)
    requires Less(a, b) && Less(b, c)
    ensures Less(a, c)
  {
    if a != [] && a[0] == b[0] == c[0] { LessIsTransitive(a[1..], b[1..], c[1..]); }
  }

  lemma {:induction false} LessIsTotal(a: string, b: string)
    ensures Less(a, b) || a == b || Less(b, a)
  {
    if a != [] && b != [] && a[0] == b[0] {
      LessIsTotal(a[1..], b[1..]);
      if a[1..] == b[1..] { assert a == [a[0]] + a[1..] == b; }
    }
  }

  lemma {:induction false} LessIsStrict(a: string, b: string)
    requires Less(a, b)
    ensures !Less(b, a) && a != b
  {
    if a != [] && a[0] == b[0] { LessIsStrict(a[1..], b[1..]); }
  }

  predicate Sorted(es: seq<Entry>) {
    forall i, j :: 0 <= i < j < |es| ==> !Less(es[j].id, es[i].id)
  }

  predicate DistinctIds(es: seq<Entry>) {
    forall i, j :: 0 <= i < j < |es| ==> es[i].id != es[j].id
  }

  // What sort.Slice promises: it is not stable, so entries with equal ids come in any order.
  ghost predicate SortedForm(es: seq<Entry>, order: seq<Entry>) {
    multiset(order) == multiset(es) && Sorted(order)
  }

  method Sort(es: seq<Entry>) returns (order: seq<Entry>)
    ensures SortedForm(es, order)
  {
    order := [];
    for i := 0 to |es|
      invariant multiset(order) == multiset(es[..i]) && Sorted(order)
    {
      order := Insert(order, es[i]);
      assert es[..i + 1] == es[..i] + [es[i]];
    }
    assert es[..|es|] == es;
  }

  method Insert(order: seq<Entry>, e: Entry) returns (r: seq<Entry>)
    requires Sorted(order)
    ensures multiset(r) == multiset(order) + multiset{e} && Sorted(r)
  {
    var k := |order|;
    while k > 0 && Less(e.id, order[k - 1].id)
      invariant 0 <= k <= |order|
      invariant forall j :: k <= j < |order| ==> Less(e.id, order[j].id)
    {
      k := k - 1;
    }
    r := order[..k] + [e] + order[k..];
    assert order == order[..k] + order[k..];
    InsertedInOrder(order, e, k);
  }

  lemma InsertedInOrder(order: seq<Entry>, e: Entry, k: nat)
    requires Sorted(order) && k <= |order|
    requires k > 0 ==> !Less(e.id, order[k - 1].id)
    requires forall j :: k <= j < |order| ==> Less(e.id, order[j].id)
    ensures Sorted(order[..k] + [e] + order[k..])
  {
    var r := order[..k] + [e] + order[k..];
    forall j | 0 <= j < k ensures !Less(e.id, order[j].id) {
      if Less(e.id, order[j].id) && j < k - 1 {
        var last := order[k - 1].id;
        LessIsTotal(order[j].id, last);
        if Less(order[j].id, last) { LessIsTransitive(e.id, order[j].id, last); }
      }
    }
    forall j | k <= j < |order| ensures !Less(order[j].id, e.id) {
      LessIsStrict(e.id, order[j].id);
    }
    assert forall j :: 0 <= j < |r| ==> r[j] == if j < k then order[j] else if j == k then e else order[j - 1];
  }

  lemma FirstIsSmallest(a: seq<Entry>, b: seq<Entry>)
    requires multiset(a) == multiset(b) && Sorted(a) && Sorted(b) && a != [] && b != []
    ensures !Less(a[0].id, b[0].id)
  {
    assert a[0] in multiset(b);
    var i :| 0 <= i < |b| && b[i] == a[0];
    if i == 0 { hide Less; } else { assert !Less(b[i].id, b[0].id); }
    if Less(a[0].id, b[0].id) { LessIsStrict(a[0].id, b[0].id); }
  }

  // With distinct ids there is one sorted form: neither the order of the rows nor the sort
  // can be seen in it.
  lemma {:induction false} SortedFormIsUnique(a: seq<Entry>, b: seq<Entry>)
    requires multiset(a) == multiset(b) && Sorted(a) && Sorted(b) && DistinctIds(a)
    ensures a == b
    decreases |a|
  {
    assert |multiset(b)| == |multiset(a)|;
    if a != [] {
      FirstsAgree(a, b);
      hide Less;
      assert a == [a[0]] + a[1..] && b == [b[0]] + b[1..];
      assert multiset(a[1..]) == multiset(a) - multiset{a[0]};
      assert multiset(b[1..]) == multiset(b) - multiset{b[0]};
      SortedFormIsUnique(a[1..], b[1..]);
    }
  }

  lemma FirstsAgree(a: seq<Entry>, b: seq<Entry>)
    requires multiset(a) == multiset(b) && Sorted(a) && Sorted(b) && DistinctIds(a) && a != [] && b != []
    ensures a[0] == b[0]
  {
    FirstIsSmallest(a, b);
    FirstIsSmallest(b, a);
    LessIsTotal(a[0].id, b[0].id);
    hide Less, Sorted;
    assert b[0] in multiset(a);
    var j :| 0 <= j < |a| && a[j] == b[0];
  }

  // ----- the text -----

  function Digit(d: nat): (c: char)
    requires d < 10
    ensures '0' <= c <= '9'
  {
    '0' + d as char
  }

  function Digits(n: nat): (s: string)
    ensures |s| > 0 && forall i :: 0 <= i < |s| ==> '0' <= s[i] <= '9'
  {
    if n < 10 then [Digit(n)] else Digits(n / 10) + [Digit(n % 10)]
  }

  function Decimal(n: int): string {
    if n < 0 then "-" + Digits(-n) else Digits(n)
  }

  function ValueOf(s: string): int {
    if s == [] then 0 else 10 * ValueOf(s[..|s| - 1]) + (s[|s| - 1] as int - '0' as int)
  }

  lemma {:induction false} DigitsRoundTrip(n: nat)
    ensures ValueOf(Digits(n)) == n
  {
    if n < 10 {
      assert ValueOf(Digits(n)[..0]) == 0;
    } else {
      DigitsRoundTrip(n / 10);
      assert Digits(n)[..|Digits(n)| - 1] == Digits(n / 10);
    }
  }

  function Number(s: string): int {
    if s != [] && s[0] == '-' then -ValueOf(s[1..]) else ValueOf(s)
  }

  lemma DecimalRoundTrip(n: int)
    ensures Number(Decimal(n)) == n && ';' !in Decimal(n)
  {
    var digits := Digits(if n < 0 then -n else n);
    DigitsRoundTrip(if n < 0 then -n else n);
    assert digits[0] != '-' && ';' !in digits;
    assert ("-" + digits)[1..] == digits;
    hide Digits, ValueOf;
  }

  function EntryText(e: Entry): string {
    e.id + ":" + Decimal(e.rev)
  }

  function Text(es: seq<Entry>): string {
    if es == [] then "" else Text(es[..|es| - 1]) + (if |es| > 1 then ";" else "") + EntryText(es[|es| - 1])
  }

  // The entries written to a buffer, with a semicolon before each but the first.
  method WriteText(es: seq<Entry>) returns (text: string)
    ensures text == Text(es)
  {
    text := "";
    for i := 0 to |es|
      invariant text == Text(es[..i])
    {
      if i > 0 {
        text := text + ";";
      }
      text := text + EntryText(es[i]);
      assert es[..i + 1][..i] == es[..i];
    }
    assert es[..|es|] == es;
  }

  predicate PlainIds(es: seq<Entry>) {
    forall i :: 0 <= i < |es| ==> ':' !in es[i].id && ';' !in es[i].id
  }

  // The same text with every entry ended by a semicolon, read from the left.
  function Ended(es: seq<Entry>): string {
    if es == [] then "" else EntryText(es[0]) + ";" + Ended(es[1..])
  }

  lemma {:induction false} EndedAppend(es: seq<Entry>, e: Entry)
    ensures Ended(es + [e]) == Ended(es) + EntryText(e) + ";"
  {
    if es == [] {
      assert Ended([e][1..]) == "";
    } else {
      assert (es + [e])[1..] == es[1..] + [e];
      EndedAppend(es[1..], e);
    }
  }

  lemma {:induction false} TextIsEnded(es: seq<Entry>)
    requires es != []
    ensures Text(es) + ";" == Ended(es)
  {
    var front := es[..|es| - 1];
    assert es == front + [es[|es| - 1]];
    EndedAppend(front, es[|es| - 1]);
    if front == [] {
      assert Text(front) == "";
    } else {
      TextIsEnded(front);
    }
  }

  lemma FirstEntryIsDetermined(x: Entry, rest: string, y: Entry, rest': string)
    requires EntryText(x) + ";" + rest == EntryText(y) + ";" + rest'
    requires ':' !in x.id && ':' !in y.id
    ensures x == y && rest == rest'
  {
    var a, b := Decimal(x.rev), Decimal(y.rev);
    DecimalRoundTrip(x.rev);
    DecimalRoundTrip(y.rev);
    hide Decimal, Number;
    assert EntryText(x) + ";" + rest == x.id + ":" + (a + ";" + rest);
    assert EntryText(y) + ";" + rest' == y.id + ":" + (b + ";" + rest');
    hide EntryText;
    FirstSplitIsUnique(x.id, a + ";" + rest, y.id, b + ";" + rest', ':');
    FirstSplitIsUnique(a, rest, b, rest', ';');
  }

  lemma {:induction false} EndedIsInjective(a: seq<Entry>, b: seq<Entry>)
    requires Ended(a) == Ended(b) && PlainIds(a) && PlainIds(b)
    ensures a == b
    decreases |a|
  {
    if a != [] && b != [] {
      assert Ended(a) == EntryText(a[0]) + ";" + Ended(a[1..]);
      assert Ended(b) == EntryText(b[0]) + ";" + Ended(b[1..]);
      assert PlainIds(a[1..]) && PlainIds(b[1..]) && ':' !in a[0].id && ':' !in b[0].id;
      hide Ended, EntryText, PlainIds;
      FirstEntryIsDetermined(a[0], Ended(a[1..]), b[0], Ended(b[1..]));
      EndedIsInjective(a[1..], b[1..]);
      assert a == [a[0]] + a[1..] && b == [b[0]] + b[1..];
    }
  }

  // The text determines the entries.
  lemma TextIsInjective(a: seq<Entry>, b: seq<Entry>)
    requires Text(a) == Text(b) && PlainIds(a) && PlainIds(b)
    ensures a == b
  {
    if a != [] { TextIsEnded(a); }
    if b != [] { TextIsEnded(b); }
    EndedIsInjective(a, b);
  }
}

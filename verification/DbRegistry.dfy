/**
 DBRegistry (internal/plugins/db_registry.go): a cache of the plugin manifests in the
 database, rebuilt by polling. A malformed row keeps the manifest it had, and a poll that
 sees the ids and revisions of the poll before it changes nothing.
 */
module DbRegistry {
  import opened Wrappers
  import opened Plugins
  import opened SnapshotText

  datatype Row = Row(id: string, yaml: string, revision: int)

  type Hash = string -> string

  datatype Cache = Cache(resolved: map<string, Resolved>, lastHash: string)

  const EMPTY := Cache(map[], "")

  // ----- one poll -----

  // db_registry.go:89-108: the key a row is filed under.
  function KeyOf(parse: Parser, row: Row): string {
    match parse(row.yaml)
    case Some(m) => m.id
    case None => row.id
  }

  function Contribution(parse: Parser, prior: map<string, Resolved>, row: Row): Option<Resolved> {
    match parse(row.yaml)
    case Some(m) => Some(Resolved(m, "db"))
    case None => if row.id in prior then Some(prior[row.id]) else None
  }

  // What a poll makes of the rows if it does not skip.
  function Refreshed(parse: Parser, prior: map<string, Resolved>, rows: seq<Row>): map<string, Resolved> {
    if rows == [] then map[]
    else
      var row := rows[|rows| - 1];
      var before := Refreshed(parse, prior, rows[..|rows| - 1]);
      match Contribution(parse, prior, row)
      case Some(r) => before[KeyOf(parse, row) := r]
      case None => before
  }

  function Entries(parse: Parser, rows: seq<Row>): (es: seq<Entry>)
    ensures |es| == |rows|
  {
    seq(|rows|, i requires 0 <= i < |rows| => Entry(KeyOf(parse, rows[i]), rows[i].revision))
  }

  ghost predicate IsHashOf(parse: Parser, hash: Hash, rows: seq<Row>, h: string) {
    exists order :: SortedForm(Entries(parse, rows), order) && h == hash(Text(order))
  }

  ghost predicate Polled(parse: Parser, hash: Hash, c: Cache, rows: seq<Row>, d: Cache) {
    exists h :: IsHashOf(parse, hash, rows, h) &&
      d == if h == c.lastHash then c else Cache(Refreshed(parse, c.resolved, rows), h)
  }

  class DBRegistry {
    const parse: Parser
    const hash: Hash
    var resolved: map<string, Resolved>
    var lastHash: string
    // The number of broadcasts so far.
    ghost var broadcasts: nat

    constructor (parse: Parser, hash: Hash)
      ensures this.parse == parse && this.hash == hash && Value() == EMPTY && broadcasts == 0
    {
      this.parse, this.hash, resolved, lastHash, broadcasts := parse, hash, map[], "", 0;
    }

    ghost function Value(): Cache
      reads this
    {
      Cache(resolved, lastHash)
    }

    // No rows stand for an error of the store.
    method Poll(rows: Option<seq<Row>>)
      modifies this
      ensures rows.None? ==> Value() == old(Value()) && broadcasts == old(broadcasts)
      ensures rows.Some? ==> Polled(parse, hash, old(Value()), rows.value, Value())
      ensures broadcasts == old(broadcasts) + if Value() == old(Value()) then 0 else 1
    {
      if rows.None? {
        return;
      }
      var prior := resolved;
      var newResolved: map<string, Resolved> := map[];
      var entries: seq<Entry> := [];
      for i := 0 to |rows.value|
        invariant newResolved == Refreshed(parse, prior, rows.value[..i])
        invariant entries == Entries(parse, rows.value)[..i]
      {
        var row := rows.value[i];
        assert rows.value[..i + 1][..i] == rows.value[..i];
        var parsed := parse(row.yaml);
        if parsed.None? {
          if row.id in prior {
            newResolved := newResolved[row.id := prior[row.id]];
          }
          entries := entries + [Entry(row.id, row.revision)];
          continue;
        }
        newResolved := newResolved[parsed.value.id := Resolved(parsed.value, "db")];
        entries := entries + [Entry(parsed.value.id, row.revision)];
      }
      assert rows.value[..|rows.value|] == rows.value;
      assert entries == Entries(parse, rows.value);
      var order := Sort(entries);
      var text := WriteText(order);
      var h := hash(text);
      assert IsHashOf(parse, hash, rows.value, h);
      if h == lastHash {
        return;
      }
      resolved := newResolved;
      lastHash := h;
      broadcasts := broadcasts + 1;
    }
  }

  // ----- what the skip relies on -----

  // Row ids are unique and valid, and are the ids in the manifests (internal/api/server.go:1497-1514).
  ghost predicate WellKeyed(parse: Parser, rows: seq<Row>) {
    && (forall i, j :: 0 <= i < j < |rows| ==> rows[i].id != rows[j].id)
    && (forall i :: 0 <= i < |rows| ==> ValidId(rows[i].id) && KeyOf(parse, rows[i]) == rows[i].id)
  }

  // A row's revision changes whenever its text does.
  ghost predicate RevisionFixesText(rows: seq<Row>, later: seq<Row>) {
    forall i, j :: 0 <= i < |rows| && 0 <= j < |later| && rows[i].id == later[j].id
                   && rows[i].revision == later[j].revision
      ==> rows[i].yaml == later[j].yaml
  }

  ghost predicate SameRows(rows: seq<Row>, later: seq<Row>) {
    forall row :: row in rows <==> row in later
  }

  ghost predicate IsPerfect(hash: Hash) {
    && (forall text :: hash(text) != "")
    && (forall a, b :: hash(a) == hash(b) ==> a == b)
  }

  // ----- the rows as a set -----

  lemma RefreshedAt(parse: Parser, prior: map<string, Resolved>, rows: seq<Row>)
    requires WellKeyed(parse, rows)
    ensures forall id :: id in Refreshed(parse, prior, rows) ==>
      exists i :: 0 <= i < |rows| && rows[i].id == id && Contribution(parse, prior, rows[i]).Some?
    ensures forall i :: 0 <= i < |rows| && Contribution(parse, prior, rows[i]).Some? ==>
      && rows[i].id in Refreshed(parse, prior, rows)
      && Refreshed(parse, prior, rows)[rows[i].id] == Contribution(parse, prior, rows[i]).value
  {
    hide Contribution, Refreshed, WellKeyed;
    forall id | id in Refreshed(parse, prior, rows)
      ensures exists i :: 0 <= i < |rows| && rows[i].id == id && Contribution(parse, prior, rows[i]).Some?
    {
      var i := ListedRow(parse, prior, rows, id);
    }
    forall i | 0 <= i < |rows| && Contribution(parse, prior, rows[i]).Some?
      ensures rows[i].id in Refreshed(parse, prior, rows)
      ensures Refreshed(parse, prior, rows)[rows[i].id] == Contribution(parse, prior, rows[i]).value
    {
      RefreshedRow(parse, prior, rows, i);
    }
  }

  lemma {:induction false} ListedRow(parse: Parser, prior: map<string, Resolved>, rows: seq<Row>, id: string) returns (i: nat)
    requires WellKeyed(parse, rows) && id in Refreshed(parse, prior, rows)
    ensures i < |rows| && rows[i].id == id && Contribution(parse, prior, rows[i]).Some?
  {
    hide Contribution, ValidId, KeyOf;
    i := |rows| - 1;
    var front := rows[..i];
    if rows[i].id != id || Contribution(parse, prior, rows[i]).None? {
      i := ListedRow(parse, prior, front, id);
    }
  }

  lemma {:induction false} RefreshedRow(parse: Parser, prior: map<string, Resolved>, rows: seq<Row>, i: nat)
    requires WellKeyed(parse, rows) && i < |rows| && Contribution(parse, prior, rows[i]).Some?
    ensures rows[i].id in Refreshed(parse, prior, rows)
    ensures Refreshed(parse, prior, rows)[rows[i].id] == Contribution(parse, prior, rows[i]).value
  {
    hide Contribution, ValidId, KeyOf;
    var front := rows[..|rows| - 1];
    if i < |front| {
      assert front[i] == rows[i];
      RefreshedRow(parse, prior, front, i);
    }
  }

  // The order of the rows does not matter.
  lemma RefreshedOfSameRows(parse: Parser, prior: map<string, Resolved>, rows: seq<Row>, later: seq<Row>)
    requires WellKeyed(parse, rows) && WellKeyed(parse, later) && SameRows(rows, later)
    ensures Refreshed(parse, prior, rows) == Refreshed(parse, prior, later)
  {
    RefreshedWithin(parse, prior, rows, later);
    RefreshedWithin(parse, prior, later, rows);
  }

  lemma RefreshedWithin(parse: Parser, prior: map<string, Resolved>, rows: seq<Row>, later: seq<Row>)
    requires WellKeyed(parse, rows) && WellKeyed(parse, later) && SameRows(rows, later)
    ensures forall id :: id in Refreshed(parse, prior, rows) ==>
      id in Refreshed(parse, prior, later) && Refreshed(parse, prior, later)[id] == Refreshed(parse, prior, rows)[id]
  {
    RefreshedAt(parse, prior, rows);
    RefreshedAt(parse, prior, later);
    hide Refreshed, Contribution, KeyOf;
    forall id | id in Refreshed(parse, prior, rows)
      ensures id in Refreshed(parse, prior, later)
           && Refreshed(parse, prior, later)[id] == Refreshed(parse, prior, rows)[id]
    {
      var i :| 0 <= i < |rows| && rows[i].id == id && Contribution(parse, prior, rows[i]).Some?;
      assert rows[i] in later;
      var j :| 0 <= j < |later| && later[j] == rows[i];
    }
  }

  // The fallback is idempotent: refreshing again from the same rows changes nothing.
  lemma RefreshedIsSettled(parse: Parser, prior: map<string, Resolved>, rows: seq<Row>)
    requires WellKeyed(parse, rows)
    ensures var r := Refreshed(parse, prior, rows); Refreshed(parse, r, rows) == r
  {
    var r := Refreshed(parse, prior, rows);
    RefreshedAt(parse, prior, rows);
    RefreshedAt(parse, r, rows);
    hide Refreshed;
  }

  // Equal texts were made from the same rows.
  lemma SameTextSameRows(parse: Parser, rows: seq<Row>, order: seq<Entry>, later: seq<Row>, order': seq<Entry>)
    requires WellKeyed(parse, rows) && WellKeyed(parse, later) && RevisionFixesText(rows, later)
    requires SortedForm(Entries(parse, rows), order) && SortedForm(Entries(parse, later), order')
    requires Text(order) == Text(order')
    ensures SameRows(rows, later)
  {
    OrderedIdsArePlain(parse, rows, order);
    OrderedIdsArePlain(parse, later, order');
    TextIsInjective(order, order');
    hide Text, Sorted;
    RowsWithin(parse, rows, later);
    RowsWithin(parse, later, rows);
  }

  lemma OrderedIdsArePlain(parse: Parser, rows: seq<Row>, order: seq<Entry>)
    requires WellKeyed(parse, rows) && SortedForm(Entries(parse, rows), order)
    ensures PlainIds(order)
  {
    var es := Entries(parse, rows);
    forall k | 0 <= k < |order| ensures ':' !in order[k].id && ';' !in order[k].id {
      assert order[k] in multiset(es);
      var i :| 0 <= i < |es| && es[i] == order[k];
      assert ValidId(rows[i].id);
    }
  }

  lemma RowsWithin(parse: Parser, rows: seq<Row>, later: seq<Row>)
    requires WellKeyed(parse, rows) && WellKeyed(parse, later)
    requires multiset(Entries(parse, rows)) == multiset(Entries(parse, later))
    requires RevisionFixesText(rows, later) || RevisionFixesText(later, rows)
    ensures forall row :: row in rows ==> row in later
  {
    var es, es' := Entries(parse, rows), Entries(parse, later);
    forall i | 0 <= i < |rows| ensures rows[i] in later {
      assert es[i] in multiset(es');
      var j :| 0 <= j < |es'| && es'[j] == es[i];
      assert later[j] == rows[i];
    }
  }

  // The row says r under the id: by its text, or, if that is malformed, by what was there before.
  predicate Says(parse: Parser, prior: map<string, Resolved>, row: Row, id: string, r: Resolved) {
    match parse(row.yaml)
    case Some(m) => m.id == id && r.manifest == m && r.source == "db"
    case None => row.id == id && id in prior && prior[id] == r
  }

  // Whatever the rows: an id has what the last row with something to say under it says.
  lemma {:induction false} RefreshedMeans(parse: Parser, prior: map<string, Resolved>, rows: seq<Row>, id: string, r: Resolved)
    requires KeyedById(prior)
    ensures Lookup(Refreshed(parse, prior, rows), id) == Some(r)
      <==> exists i :: 0 <= i < |rows| && Says(parse, prior, rows[i], id, r)
             && forall j :: i < j < |rows| ==> forall q :: !Says(parse, prior, rows[j], id, q)
  {
    if rows != [] {
      var front, n := rows[..|rows| - 1], |rows| - 1;
      RefreshedMeans(parse, prior, front, id, r);
      LastSays(parse, prior, rows, id);
      hide Refreshed, Says;
      assert forall i :: 0 <= i < n ==> front[i] == rows[i];
      if Lookup(Refreshed(parse, prior, rows), id) == Some(r) && Lookup(Refreshed(parse, prior, front), id) == Some(r)
        && (forall q :: !Says(parse, prior, rows[n], id, q)) {
        var i :| 0 <= i < n && Says(parse, prior, front[i], id, r)
          && forall j :: i < j < n ==> forall q :: !Says(parse, prior, front[j], id, q);
        assert Says(parse, prior, rows[i], id, r);
      }
    }
  }

  lemma LastSays(parse: Parser, prior: map<string, Resolved>, rows: seq<Row>, id: string)
    requires rows != [] && KeyedById(prior)
    ensures var n := |rows| - 1;
      var now, before := Lookup(Refreshed(parse, prior, rows), id), Lookup(Refreshed(parse, prior, rows[..n]), id);
      && (forall q :: Says(parse, prior, rows[n], id, q) ==> now == Some(q))
      && ((forall q :: !Says(parse, prior, rows[n], id, q)) ==> now == before)
  {
    var row := rows[|rows| - 1];
    if Contribution(parse, prior, row).Some? && KeyOf(parse, row) == id {
      assert Says(parse, prior, row, id, Contribution(parse, prior, row).value);
    }
  }

  // Whatever the rows, what is cached stays filed under the manifests' own ids.
  lemma {:induction false} RefreshedIsKeyed(parse: Parser, prior: map<string, Resolved>, rows: seq<Row>)
    requires KeyedById(prior)
    ensures KeyedById(Refreshed(parse, prior, rows))
  {
    if rows != [] { RefreshedIsKeyed(parse, prior, rows[..|rows| - 1]); }
  }

  // ----- the skip is sound over every run of polls -----

  // The reference: refresh at every poll that reaches the store.
  ghost function NoSkip(parse: Parser, polls: seq<Option<seq<Row>>>): map<string, Resolved> {
    if polls == [] then map[]
    else
      var before := NoSkip(parse, polls[..|polls| - 1]);
      match polls[|polls| - 1]
      case Some(rows) => Refreshed(parse, before, rows)
      case None => before
  }

  ghost function LastRows(polls: seq<Option<seq<Row>>>): Option<seq<Row>> {
    if polls == [] then None
    else if polls[|polls| - 1].Some? then polls[|polls| - 1]
    else LastRows(polls[..|polls| - 1])
  }

  // Every poll sees well-keyed rows whose revisions tell their texts from those of the
  // successful poll before.
  ghost predicate Faithful(parse: Parser, polls: seq<Option<seq<Row>>>) {
    polls == [] ||
    (var before := polls[..|polls| - 1];
     && Faithful(parse, before)
     && match polls[|polls| - 1]
        case None => true
        case Some(rows) =>
          && WellKeyed(parse, rows)
          && match LastRows(before)
             case None => true
             case Some(last) => RevisionFixesText(last, rows))
  }

  // The cache after a run of polls.
  ghost predicate PolledTo(parse: Parser, hash: Hash, polls: seq<Option<seq<Row>>>, c: Cache) {
    if polls == [] then c == EMPTY
    else
      var before, poll := polls[..|polls| - 1], polls[|polls| - 1];
      exists b :: PolledTo(parse, hash, before, b) && Followed(parse, hash, b, poll, c)
  }

  ghost predicate Followed(parse: Parser, hash: Hash, b: Cache, poll: Option<seq<Row>>, c: Cache) {
    match poll
    case None => c == b
    case Some(rows) => Polled(parse, hash, b, rows, c)
  }

  // What the cache knows after the rows last seen.
  ghost predicate SettledOn(parse: Parser, hash: Hash, c: Cache, last: Option<seq<Row>>) {
    match last
    case None => c == EMPTY
    case Some(rows) =>
      && WellKeyed(parse, rows)
      && IsHashOf(parse, hash, rows, c.lastHash)
      && c.resolved == Refreshed(parse, c.resolved, rows)
  }

  lemma PollIsSound(parse: Parser, hash: Hash, c: Cache, last: Option<seq<Row>>, rows: seq<Row>, d: Cache)
    requires IsPerfect(hash) && SettledOn(parse, hash, c, last) && WellKeyed(parse, rows)
    requires last.Some? ==> RevisionFixesText(last.value, rows)
    requires Polled(parse, hash, c, rows, d)
    ensures d.resolved == Refreshed(parse, c.resolved, rows)
    ensures SettledOn(parse, hash, d, Some(rows))
  {
    var h :| IsHashOf(parse, hash, rows, h) &&
      d == if h == c.lastHash then c else Cache(Refreshed(parse, c.resolved, rows), h);
    RefreshedIsSettled(parse, c.resolved, rows);
    if h == c.lastHash {
      assert last.Some?;
      var order :| SortedForm(Entries(parse, last.value), order) && h == hash(Text(order));
      var order' :| SortedForm(Entries(parse, rows), order') && h == hash(Text(order'));
      SameTextSameRows(parse, last.value, order, rows, order');
      RefreshedOfSameRows(parse, c.resolved, last.value, rows);
    }
  }

  // With a perfect hash and faithful rows, the cache after any run of polls is what
  // refreshing at every poll would have made it.
  lemma {:induction false} SkippingIsSound(parse: Parser, hash: Hash, polls: seq<Option<seq<Row>>>, c: Cache)
    requires IsPerfect(hash) && Faithful(parse, polls) && PolledTo(parse, hash, polls, c)
    ensures c.resolved == NoSkip(parse, polls)
    ensures SettledOn(parse, hash, c, LastRows(polls))
    decreases |polls|
  {
    if polls != [] {
      var before, poll := polls[..|polls| - 1], polls[|polls| - 1];
      var b :| PolledTo(parse, hash, before, b) && Followed(parse, hash, b, poll, c);
      SkippingIsSound(parse, hash, before, b);
      if poll.Some? { PollIsSound(parse, hash, b, LastRows(before), poll.value, c); }
    }
  }

  // ----- when the revisions do not fix the texts -----

  ghost predicate SameEntries(parse: Parser, rows: seq<Row>, later: seq<Row>) {
    multiset(Entries(parse, rows)) == multiset(Entries(parse, later))
  }

  ghost predicate IsCached(parse: Parser, resolved: map<string, Resolved>, row: Row) {
    match parse(row.yaml)
    case Some(m) => row.id in resolved && resolved[row.id] == Resolved(m, "db")
    case None => true
  }

  // A poll that sees the same ids and revisions is skipped, and the skip is right if and
  // only if every row that parses parses to the manifest that is cached for it.
  lemma SkipIsRightIff(parse: Parser, hash: Hash, c: Cache, last: seq<Row>, rows: seq<Row>, d: Cache)
    requires SettledOn(parse, hash, c, Some(last)) && WellKeyed(parse, rows)
    requires SameEntries(parse, last, rows) && Polled(parse, hash, c, rows, d)
    ensures d == c
    ensures d.resolved == Refreshed(parse, c.resolved, rows)
      <==> forall i :: 0 <= i < |rows| ==> IsCached(parse, c.resolved, rows[i])
  {
    SameEntriesAreSkipped(parse, hash, c, last, rows, d);
    CachedIdsAreListed(parse, c.resolved, last, rows);
    RefreshedAt(parse, c.resolved, rows);
    hide Refreshed, SettledOn, Polled, SameEntries, ValidId;
    if c.resolved == Refreshed(parse, c.resolved, rows) {
      assert forall i :: 0 <= i < |rows| ==> IsCached(parse, c.resolved, rows[i]);
    } else if forall i :: 0 <= i < |rows| ==> IsCached(parse, c.resolved, rows[i]) {
      CachedIsRefreshed(parse, c.resolved, rows);
    }
  }

  lemma CachedIsRefreshed(parse: Parser, resolved: map<string, Resolved>, rows: seq<Row>)
    requires WellKeyed(parse, rows) && forall i :: 0 <= i < |rows| ==> IsCached(parse, resolved, rows[i])
    requires forall id :: id in resolved ==> exists j :: 0 <= j < |rows| && rows[j].id == id
    ensures resolved == Refreshed(parse, resolved, rows)
  {
    RefreshedAt(parse, resolved, rows);
    hide Refreshed, ValidId;
  }

  lemma CachedIdsAreListed(parse: Parser, resolved: map<string, Resolved>, last: seq<Row>, rows: seq<Row>)
    requires WellKeyed(parse, last) && WellKeyed(parse, rows) && SameEntries(parse, last, rows)
    requires resolved == Refreshed(parse, resolved, last)
    ensures forall id :: id in resolved ==> exists j :: 0 <= j < |rows| && rows[j].id == id
  {
    RefreshedAt(parse, resolved, last);
    hide Refreshed;
    forall id | id in resolved ensures exists j :: 0 <= j < |rows| && rows[j].id == id {
      var i :| 0 <= i < |last| && last[i].id == id;
      assert Entries(parse, last)[i] in multiset(Entries(parse, rows));
      var j :| 0 <= j < |rows| && Entries(parse, rows)[j] == Entries(parse, last)[i];
      assert rows[j].id == id;
    }
  }

  lemma SameEntriesAreSkipped(parse: Parser, hash: Hash, c: Cache, last: seq<Row>, rows: seq<Row>, d: Cache)
    requires SettledOn(parse, hash, c, Some(last)) && WellKeyed(parse, rows)
    requires SameEntries(parse, last, rows) && Polled(parse, hash, c, rows, d)
    ensures d == c
  {
    var h :| IsHashOf(parse, hash, rows, h) &&
      d == if h == c.lastHash then c else Cache(Refreshed(parse, c.resolved, rows), h);
    var order :| SortedForm(Entries(parse, last), order) && c.lastHash == hash(Text(order));
    var order' :| SortedForm(Entries(parse, rows), order') && h == hash(Text(order'));
    OrderedIdsAreDistinct(parse, last, order);
    SortedFormIsUnique(order, order');
  }

  lemma OrderedIdsAreDistinct(parse: Parser, rows: seq<Row>, order: seq<Entry>)
    requires WellKeyed(parse, rows) && SortedForm(Entries(parse, rows), order)
    ensures DistinctIds(order)
  {
    var es := Entries(parse, rows);
    hide Sorted, ValidId, KeyOf;
    forall i, j | 0 <= i < j < |order| ensures order[i].id != order[j].id {
      assert order[i] in multiset(es) && order[j] in multiset(es);
      var k :| 0 <= k < |es| && es[k] == order[i];
      var l :| 0 <= l < |es| && es[l] == order[j];
      if k == l { OccursTwice(order, i, j); OccursOnce(es, k); }
    }
  }

  lemma OccursTwice(order: seq<Entry>, i: nat, j: nat)
    requires i < j < |order| && order[i] == order[j]
    ensures multiset(order)[order[i]] >= 2
  {
    assert order == order[..i + 1] + order[i + 1..];
    assert order[i] in order[..i + 1] && order[i + 1..][j - i - 1] == order[i];
    assert multiset(order[i + 1..])[order[i]] >= 1;
  }

  lemma OccursOnce(es: seq<Entry>, k: nat)
    requires k < |es| && forall i :: 0 <= i < |es| && i != k ==> es[i] != es[k]
    ensures multiset(es)[es[k]] == 1
  {
    assert es == es[..k] + [es[k]] + es[k + 1..];
    assert es[k] !in es[..k] && es[k] !in es[k + 1..];
  }

  // ----- the cache in terms of the texts -----

  ghost function RowOf(rows: seq<Row>, id: string): Option<Row> {
    if rows == [] then None
    else if rows[|rows| - 1].id == id then Some(rows[|rows| - 1])
    else RowOf(rows[..|rows| - 1], id)
  }

  // A poll that failed, or that saw a malformed text for the id.
  ghost predicate TellsNothing(parse: Parser, poll: Option<seq<Row>>, id: string) {
    match poll
    case None => true
    case Some(rows) => RowOf(rows, id).Some? && parse(RowOf(rows, id).value.yaml).None?
  }

  ghost predicate Tells(parse: Parser, poll: Option<seq<Row>>, id: string, m: Manifest) {
    poll.Some? && RowOf(poll.value, id).Some? && parse(RowOf(poll.value, id).value.yaml) == Some(m)
  }

  // What the last text of the id that parsed says, if its row has been listed ever since.
  ghost function LastParsed(parse: Parser, polls: seq<Option<seq<Row>>>, id: string): Option<Manifest> {
    if polls == [] then None
    else
      var before, poll := polls[..|polls| - 1], polls[|polls| - 1];
      if TellsNothing(parse, poll, id) then LastParsed(parse, before, id)
      else match RowOf(poll.value, id)
        case Some(row) => parse(row.yaml)
        case None => None
  }

  lemma {:induction false} LastParsedIff(parse: Parser, polls: seq<Option<seq<Row>>>, id: string, m: Manifest)
    ensures LastParsed(parse, polls, id) == Some(m)
      <==> exists k :: 0 <= k < |polls| && Tells(parse, polls[k], id, m)
             && forall j :: k < j < |polls| ==> TellsNothing(parse, polls[j], id)
  {
    if polls != [] {
      var front, n := polls[..|polls| - 1], |polls| - 1;
      LastParsedIff(parse, front, id, m);
      hide RowOf;
      assert forall k :: 0 <= k < n ==> front[k] == polls[k];
      if TellsNothing(parse, polls[n], id) && LastParsed(parse, front, id) == Some(m) {
        var k :| 0 <= k < n && Tells(parse, front[k], id, m)
          && forall j :: k < j < n ==> TellsNothing(parse, front[j], id);
        assert Tells(parse, polls[k], id, m);
      }
    }
  }

  lemma {:induction false} RowOfIff(rows: seq<Row>, id: string)
    requires forall i, j :: 0 <= i < j < |rows| ==> rows[i].id != rows[j].id
    ensures forall i :: 0 <= i < |rows| && rows[i].id == id ==> RowOf(rows, id) == Some(rows[i])
    ensures RowOf(rows, id).Some? ==> RowOf(rows, id).value in rows && RowOf(rows, id).value.id == id
  {
    if rows != [] {
      var front := rows[..|rows| - 1];
      RowOfIff(front, id);
      assert forall i :: 0 <= i < |front| ==> front[i] == rows[i];
    }
  }

  lemma RefreshedLookup(parse: Parser, prior: map<string, Resolved>, rows: seq<Row>, id: string)
    requires WellKeyed(parse, rows)
    ensures Lookup(Refreshed(parse, prior, rows), id) ==
      match RowOf(rows, id)
      case None => None
      case Some(row) => Contribution(parse, prior, row)
  {
    RowOfIff(rows, id);
    RefreshedAt(parse, prior, rows);
    hide Refreshed, Contribution, RowOf, ValidId, KeyOf;
  }

  // Refreshing at every poll keeps for each id what its last text that parsed says.
  lemma {:induction false} NoSkipIsLastParsed(parse: Parser, polls: seq<Option<seq<Row>>>, id: string)
    requires Faithful(parse, polls)
    ensures Lookup(NoSkip(parse, polls), id) ==
      match LastParsed(parse, polls, id)
      case None => None
      case Some(m) => Some(Resolved(m, "db"))
  {
    if polls != [] {
      var before, poll := polls[..|polls| - 1], polls[|polls| - 1];
      NoSkipIsLastParsed(parse, before, id);
      if poll.Some? {
        RefreshedLookup(parse, NoSkip(parse, before), poll.value, id);
        RowOfIff(poll.value, id);
      }
      hide Refreshed, RowOf, WellKeyed, Faithful;
    }
  }

  // A text says what the last one of its id that parsed said, or it says nothing.
  ghost predicate SaysNothingNew(parse: Parser, polls: seq<Option<seq<Row>>>, row: Row) {
    parse(row.yaml).None? || parse(row.yaml) == LastParsed(parse, polls, row.id)
  }

  // A poll that sees the ids and revisions of the poll before it is skipped, and after any
  // run of faithful polls that is right if and only if no text says anything new.
  lemma SkipIsRightIffNothingNew(parse: Parser, hash: Hash, polls: seq<Option<seq<Row>>>, c: Cache, rows: seq<Row>, d: Cache)
    requires IsPerfect(hash) && Faithful(parse, polls) && PolledTo(parse, hash, polls, c)
    requires LastRows(polls).Some? && SameEntries(parse, LastRows(polls).value, rows) && WellKeyed(parse, rows)
    requires Polled(parse, hash, c, rows, d)
    ensures d.resolved == NoSkip(parse, polls + [Some(rows)])
      <==> forall i :: 0 <= i < |rows| ==> SaysNothingNew(parse, polls, rows[i])
  {
    SkippingIsSound(parse, hash, polls, c);
    SkipIsRightIff(parse, hash, c, LastRows(polls).value, rows, d);
    assert (polls + [Some(rows)])[..|polls|] == polls;
    hide Polled, PolledTo, SameEntries, WellKeyed, SettledOn, Faithful, IsPerfect, LastParsed, Refreshed;
    forall i | 0 <= i < |rows|
      ensures IsCached(parse, c.resolved, rows[i]) <==> SaysNothingNew(parse, polls, rows[i])
    {
      NoSkipIsLastParsed(parse, polls, rows[i].id);
    }
  }

  // A row deleted and created anew starts at revision 1 again (internal/store/store.go:654-688).
  // If no poll falls in between, its new text is never seen.
  lemma RecreatedRowIsMissed(parse: Parser, hash: Hash, c: Cache, d: Cache)
    requires parse("old") == Some(Manifest("a", "old")) && parse("new") == Some(Manifest("a", "new"))
    requires hash(Text([Entry("a", 1)])) != ""
    requires Polled(parse, hash, EMPTY, [Row("a", "old", 1)], c)
    requires Polled(parse, hash, c, [Row("a", "new", 1)], d)
    ensures d.resolved == map["a" := Resolved(Manifest("a", "old"), "db")]
    ensures NoSkip(parse, [Some([Row("a", "old", 1)]), Some([Row("a", "new", 1)])])
         == map["a" := Resolved(Manifest("a", "new"), "db")]
  {
    var before, after := [Row("a", "old", 1)], [Row("a", "new", 1)];
    RefreshedOfOne(parse, map[], before[0], Manifest("a", "old"));
    RefreshedOfOne(parse, c.resolved, after[0], Manifest("a", "new"));
    OnlyOneHash(parse, hash, before[0]);
    OnlyOneHash(parse, hash, after[0]);
    var polls := [Some(before), Some(after)];
    assert polls[..1] == [Some(before)] && [Some(before)][..0] == [];
    RefreshedOfOne(parse, NoSkip(parse, polls[..1]), after[0], Manifest("a", "new"));
    hide Refreshed, IsHashOf, Text;
    assert c == Cache(map["a" := Resolved(Manifest("a", "old"), "db")], hash(Text([Entry("a", 1)])));
  }

  lemma RefreshedOfOne(parse: Parser, prior: map<string, Resolved>, row: Row, m: Manifest)
    requires parse(row.yaml) == Some(m)
    ensures Refreshed(parse, prior, [row]) == map[m.id := Resolved(m, "db")]
  {
    assert [row][..0] == [];
    assert Refreshed(parse, prior, [row][..0]) == map[];
  }

  lemma OnlyOneHash(parse: Parser, hash: Hash, row: Row)
    ensures forall h :: IsHashOf(parse, hash, [row], h) ==> h == hash(Text([Entry(KeyOf(parse, row), row.revision)]))
  {
    var e := Entry(KeyOf(parse, row), row.revision);
    assert Entries(parse, [row]) == [e];
    forall order | SortedForm([e], order) ensures order == [e] {
      assert |multiset(order)| == |multiset([e])|;
      assert order[0] in multiset([e]);
    }
  }
}

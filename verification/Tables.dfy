/**
 A slice of records that is scanned for a key, as a map: what the first match, appending,
 replacing, cutting out and filtering mean for the map.
 */
module Tables {
  predicate DistinctKeys<T, K(==)>(rows: seq<T>, key: T -> K) {
    forall i, j :: 0 <= i < j < |rows| ==> key(rows[i]) != key(rows[j])
  }

  // Each key with its first record.
  ghost function Index<T, K>(rows: seq<T>, key: T -> K): map<K, T> {
    if rows == [] then map[] else Index(rows[1..], key)[key(rows[0]) := rows[0]]
  }

  // The first record with a key is what the map holds for it.
  lemma {:induction false} FirstMatch<T, K>(rows: seq<T>, key: T -> K, i: nat)
    requires i < |rows| && forall j :: 0 <= j < i ==> key(rows[j]) != key(rows[i])
    ensures key(rows[i]) in Index(rows, key) && Index(rows, key)[key(rows[i])] == rows[i]
  {
    if i > 0 { FirstMatch(rows[1..], key, i - 1); }
  }

  lemma {:induction false} NoMatch<T, K>(rows: seq<T>, key: T -> K, k: K)
    ensures k in Index(rows, key) <==> exists i :: 0 <= i < |rows| && key(rows[i]) == k
  {
    if rows != [] {
      NoMatch(rows[1..], key, k);
      assert forall i :: 0 < i < |rows| ==> rows[i] == rows[1..][i - 1];
      assert forall i :: 0 <= i < |rows| - 1 ==> rows[1..][i] == rows[i + 1];
    }
  }

  // With distinct keys the map is the set of records.
  lemma IndexIsExact<T, K>(rows: seq<T>, key: T -> K)
    requires DistinctKeys(rows, key)
    ensures forall i :: 0 <= i < |rows| ==> key(rows[i]) in Index(rows, key) && Index(rows, key)[key(rows[i])] == rows[i]
    ensures forall k :: k in Index(rows, key) ==> Index(rows, key)[k] in rows && key(Index(rows, key)[k]) == k
  {
    forall i | 0 <= i < |rows|
      ensures key(rows[i]) in Index(rows, key) && Index(rows, key)[key(rows[i])] == rows[i]
    {
      FirstMatch(rows, key, i);
    }
    forall k | k in Index(rows, key)
      ensures Index(rows, key)[k] in rows && key(Index(rows, key)[k]) == k
    {
      NoMatch(rows, key, k);
      var i :| 0 <= i < |rows| && key(rows[i]) == k;
      FirstMatch(rows, key, i);
    }
  }

  // Two maps that hold the records of the same set under their keys are equal.
  lemma SameRecords<T, K>(rows: seq<T>, key: T -> K, m: map<K, T>)
    requires DistinctKeys(rows, key)
    requires forall i :: 0 <= i < |rows| ==> key(rows[i]) in m && m[key(rows[i])] == rows[i]
    requires forall k :: k in m ==> m[k] in rows && key(m[k]) == k
    ensures Index(rows, key) == m
  {
    IndexIsExact(rows, key);
    var index := Index(rows, key);
    hide Index;
    assert forall k :: k in m ==> k in index && index[k] == m[k] by {
      forall k | k in m ensures k in index && index[k] == m[k] {
        var i :| 0 <= i < |rows| && rows[i] == m[k];
      }
    }
  }

  lemma Appended<T, K>(rows: seq<T>, key: T -> K, row: T)
    requires DistinctKeys(rows, key) && key(row) !in Index(rows, key)
    ensures DistinctKeys(rows + [row], key)
    ensures Index(rows + [row], key) == Index(rows, key)[key(row) := row]
  {
    IndexIsExact(rows, key);
    var index := Index(rows, key);
    hide Index;
    assert forall k :: k in index ==> index[k] in rows + [row];
    SameRecords(rows + [row], key, index[key(row) := row]);
  }

  lemma Replaced<T, K>(rows: seq<T>, key: T -> K, i: nat, row: T)
    requires DistinctKeys(rows, key) && i < |rows| && key(row) == key(rows[i])
    ensures DistinctKeys(rows[i := row], key)
    ensures Index(rows[i := row], key) == Index(rows, key)[key(row) := row]
  {
    IndexIsExact(rows, key);
    var index := Index(rows, key);
    hide Index;
    forall k | k in index && k != key(row) ensures index[k] in rows[i := row] {
      var j :| 0 <= j < |rows| && rows[j] == index[k];
      assert rows[i := row][j] == index[k];
    }
    assert rows[i := row][i] == row;
    SameRecords(rows[i := row], key, index[key(row) := row]);
  }

  lemma CutIsDistinct<T, K>(rows: seq<T>, key: T -> K, i: nat)
    requires DistinctKeys(rows, key) && i < |rows|
    ensures var left := rows[..i] + rows[i + 1..];
      DistinctKeys(left, key) && forall row :: row in left <==> row in rows && row != rows[i]
  {
    var left := rows[..i] + rows[i + 1..];
    forall j | 0 <= j < |left| ensures left[j] == rows[if j < i then j else j + 1] {
    }
    forall row | row in rows && row != rows[i] ensures row in left {
      var j :| 0 <= j < |rows| && rows[j] == row;
      assert left[if j < i then j else j - 1] == row;
    }
  }

  lemma CutOut<T, K>(rows: seq<T>, key: T -> K, i: nat)
    requires DistinctKeys(rows, key) && i < |rows|
    ensures DistinctKeys(rows[..i] + rows[i + 1..], key)
    ensures Index(rows[..i] + rows[i + 1..], key) == Index(rows, key) - {key(rows[i])}
  {
    IndexIsExact(rows, key);
    CutIsDistinct(rows, key, i);
    var index, left := Index(rows, key), rows[..i] + rows[i + 1..];
    hide Index;
    forall j | 0 <= j < |left|
      ensures key(left[j]) in index - {key(rows[i])} && index[key(left[j])] == left[j]
    {
      assert left[j] in left;
      var k :| 0 <= k < |rows| && rows[k] == left[j];
      assert k != i;
    }
    SameRecords(left, key, index - {key(rows[i])});
  }

  function Kept<T>(rows: seq<T>, keep: T -> bool): seq<T> {
    if rows == [] then []
    else Kept(rows[..|rows| - 1], keep) + if keep(rows[|rows| - 1]) then [rows[|rows| - 1]] else []
  }

  lemma {:induction false} KeptMembers<T, K>(rows: seq<T>, key: T -> K, keep: T -> bool)
    requires DistinctKeys(rows, key)
    ensures forall i :: 0 <= i < |Kept(rows, keep)| ==> Kept(rows, keep)[i] in rows && keep(Kept(rows, keep)[i])
    ensures forall i :: 0 <= i < |rows| && keep(rows[i]) ==> rows[i] in Kept(rows, keep)
    ensures DistinctKeys(Kept(rows, keep), key)
  {
    if rows != [] {
      var front, last := rows[..|rows| - 1], rows[|rows| - 1];
      KeptMembers(front, key, keep);
      var kept := Kept(front, keep);
      assert forall i :: 0 <= i < |front| ==> front[i] == rows[i];
      forall i | 0 <= i < |kept| ensures kept[i] in rows && key(kept[i]) != key(last) {
        var j :| 0 <= j < |front| && front[j] == kept[i];
        assert rows[j] == kept[i];
      }
      forall i | 0 <= i < |rows| && keep(rows[i]) ensures rows[i] in Kept(rows, keep) {
        if i < |front| {
          var j :| 0 <= j < |kept| && kept[j] == front[i];
          assert Kept(rows, keep)[j] == rows[i];
        } else {
          assert Kept(rows, keep)[|kept|] == last;
        }
      }
    }
  }

  lemma Filtered<T, K>(rows: seq<T>, key: T -> K, keep: T -> bool)
    requires DistinctKeys(rows, key)
    ensures DistinctKeys(Kept(rows, keep), key)
    ensures Index(Kept(rows, keep), key)
         == map k | k in Index(rows, key) && keep(Index(rows, key)[k]) :: Index(rows, key)[k]
  {
    KeptMembers(rows, key, keep);
    IndexIsExact(rows, key);
    var index, kept := Index(rows, key), Kept(rows, keep);
    hide Index, Kept;
    forall i | 0 <= i < |kept|
      ensures key(kept[i]) in index && index[key(kept[i])] == kept[i]
    {
      var j :| 0 <= j < |rows| && rows[j] == kept[i];
    }
    forall k | k in index && keep(index[k]) ensures index[k] in kept {
      var j :| 0 <= j < |rows| && rows[j] == index[k];
    }
    SameRecords(kept, key, map k | k in index && keep(index[k]) :: index[k]);
  }
}

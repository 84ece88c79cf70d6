/**
 What the plugin registries share (internal/plugins/manifest.go, registry.go). Parsing is an
 arbitrary partial function on texts.
 */
module Plugins {
  import opened Wrappers

  datatype Manifest = Manifest(id: string, body: string)

  datatype Resolved = Resolved(manifest: Manifest, source: string)

  type Parser = string -> Option<Manifest>

  predicate IdChar(c: char) {
    'a' <= c <= 'z' || '0' <= c <= '9' || c == '-'
  }

  // manifest.go:92: ^[a-z0-9][a-z0-9-]*$
  predicate ValidId(id: string) {
    |id| > 0 && id[0] != '-' && forall i :: 0 <= i < |id| ==> IdChar(id[i])
  }

  // Every cache files a manifest under its own id.
  ghost predicate KeyedById(resolved: map<string, Resolved>) {
    forall id :: id in resolved ==> resolved[id].manifest.id == id
  }

  lemma SeparatorIsBehind(a: string, b: string, k: nat, sep: char)
    requires sep !in a && k < |a + [sep] + b| && (a + [sep] + b)[k] == sep
    ensures k >= |a|
  {
  }

  // A text with a separator splits in one way at the first one.
  lemma FirstSplitIsUnique(a: string, b: string, c: string, d: string, sep: char)
    requires a + [sep] + b == c + [sep] + d
    requires sep !in a && sep !in c
    ensures a == c && b == d
  {
    var whole := a + [sep] + b;
    assert whole == c + [sep] + d && whole[|a|] == sep && whole[|c|] == sep;
    SeparatorIsBehind(c, d, |a|, sep);
    SeparatorIsBehind(a, b, |c|, sep);
    assert a == whole[..|a|] == c;
    assert b == whole[|a| + 1..] == d;
  }
}

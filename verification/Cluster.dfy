/**
 The objects in the cluster that belong to an agent's sandbox
 (internal/sandbox/kubernetes_provider.go, k8s_resources.go, secrets.go), and the order in
 which they may exist.
 */
module Cluster {
  import opened Wrappers
  import opened Labels

  datatype Kind = Pod | Secret | Claim | Policy

  datatype Body =
    | PodBody(image: string, owner: string, gatewayUrl: string)
    | SecretBody(data: map<string, string>)
    | ClaimBody(storageClass: string, size: string)
    | PolicyBody(selector: map<string, string>, allowBackend: bool, allowVault: bool, egress: seq<EgressRule>)

  datatype EgressRule = EgressRule(cidr: string, ports: seq<int>)

  datatype Object = Object(labels: map<string, string>, body: Body)

  type Key = (Kind, string)

  type Objects = map<Key, Object>

  // ----- names -----

  function NameOf(kind: Kind, id: string): string {
    match kind
    case Pod => "agent-" + id
    case Claim => "shclop-workspace-" + id
    case Policy => "shclop-runtime-netpol-" + id
    case Secret => "shclop-runtime-token-" + TrimSpace(id)
  }

  function KeyOf(kind: Kind, id: string): Key {
    (kind, NameOf(kind, id))
  }

  predicate IsAgentId(id: string) {
    id != "" && TrimSpace(id) == id
  }

  lemma TrimmedIsAgentId(s: string)
    ensures TrimSpace(s) != "" ==> IsAgentId(TrimSpace(s))
  {
    TrimIsIdempotent(s, Spaces);
  }

  // An agent's own objects.
  function View(c: Objects, id: string): map<Kind, Object> {
    map kind: Kind | KeyOf(kind, id) in c :: c[KeyOf(kind, id)]
  }

  predicate IsOwn(key: Key, id: string) {
    key == KeyOf(key.0, id)
  }

  lemma NamesAreInjective(kind: Kind, a: string, b: string)
    requires NameOf(kind, a) == NameOf(kind, b)
    ensures if kind.Secret? then TrimSpace(a) == TrimSpace(b) else a == b
  {
    hide TrimSpace;
    assert ("agent-" + a)[6..] == a && ("agent-" + b)[6..] == b;
    assert ("shclop-workspace-" + a)[17..] == a && ("shclop-workspace-" + b)[17..] == b;
    assert ("shclop-runtime-netpol-" + a)[22..] == a && ("shclop-runtime-netpol-" + b)[22..] == b;
    assert ("shclop-runtime-token-" + TrimSpace(a))[21..] == TrimSpace(a);
    assert ("shclop-runtime-token-" + TrimSpace(b))[21..] == TrimSpace(b);
  }

  // Different agents own different objects.
  lemma OwnersAreDistinct(key: Key, a: string, b: string)
    requires TrimSpace(a) != TrimSpace(b)
    ensures !(IsOwn(key, a) && IsOwn(key, b))
  {
    if IsOwn(key, a) && IsOwn(key, b) { NamesAreInjective(key.0, a, b); }
  }

  // ----- what must exist before a pod -----

  predicate Ready(enforced: bool, c: Objects, id: string) {
    && KeyOf(Secret, id) in c
    && KeyOf(Claim, id) in c
    && (enforced ==> KeyOf(Policy, id) in c)
  }

  predicate PodOk(enforced: bool, c: Objects, key: Key) {
    (key.0.Pod? && "agent-" <= key.1 && IsAgentId(key.1[6..])) ==> Ready(enforced, c, key.1[6..])
  }

  // An agent's pod exists only with its token secret, its workspace claim and, when policies
  // are enforced, its network policy.
  predicate Ordered(enforced: bool, c: Objects) {
    forall key :: key in c ==> PodOk(enforced, c, key)
  }

  lemma OrderedMeans(enforced: bool, c: Objects, id: string)
    requires Ordered(enforced, c) && IsAgentId(id) && KeyOf(Pod, id) in c
    ensures Ready(enforced, c, id)
  {
    assert KeyOf(Pod, id).1[6..] == id;
    assert PodOk(enforced, c, KeyOf(Pod, id));
  }

  lemma AddingKeepsOrder(enforced: bool, c: Objects, kind: Kind, id: string, obj: Object)
    requires Ordered(enforced, c)
    requires kind.Pod? && IsAgentId(id) ==> Ready(enforced, c, id)
    ensures Ordered(enforced, c[KeyOf(kind, id) := obj])
  {
    var d := c[KeyOf(kind, id) := obj];
    hide IsAgentId, NameOf;
    assert kind.Pod? ==> KeyOf(kind, id).1[6..] == id by { PodName(id); }
    forall key | key in d ensures PodOk(enforced, d, key) {
      assert key in c ==> PodOk(enforced, c, key);
    }
  }

  lemma PodName(id: string)
    ensures NameOf(Pod, id)[..6] == "agent-" && NameOf(Pod, id)[6..] == id && |NameOf(Pod, id)| >= 6
  {
  }

  lemma RemovingKeepsOrder(enforced: bool, c: Objects, kind: Kind, id: string)
    requires Ordered(enforced, c) && IsAgentId(id)
    requires !kind.Pod? ==> KeyOf(Pod, id) !in c
    ensures Ordered(enforced, c - {KeyOf(kind, id)})
  {
    var d := c - {KeyOf(kind, id)};
    hide IsAgentId, NameOf, Ready;
    forall key | key in d ensures PodOk(enforced, d, key) {
      assert PodOk(enforced, c, key);
      if key.0.Pod? && "agent-" <= key.1 && IsAgentId(key.1[6..]) {
        PodKey(key);
        StillReady(enforced, c, kind, id, key.1[6..]);
      }
    }
  }

  lemma PodKey(key: Key)
    requires key.0.Pod? && "agent-" <= key.1
    ensures key == KeyOf(Pod, key.1[6..])
  {
    assert key.1 == "agent-" + key.1[6..];
  }

  lemma StillReady(enforced: bool, c: Objects, kind: Kind, id: string, other: string)
    requires IsAgentId(id) && IsAgentId(other) && Ready(enforced, c, other)
    requires kind.Pod? || other != id
    ensures Ready(enforced, c - {KeyOf(kind, id)}, other)
  {
    if NameOf(kind, id) == NameOf(kind, other) { NamesAreInjective(kind, id, other); }
  }

  // ----- writes, seen from their agent -----

  lemma ViewAfterPut(c: Objects, kind: Kind, id: string, obj: Object)
    ensures View(c[KeyOf(kind, id) := obj], id) == View(c, id)[kind := obj]
  {
    hide NameOf;
    var d := c[KeyOf(kind, id) := obj];
    assert forall k: Kind :: k != kind ==> (KeyOf(k, id) in d <==> KeyOf(k, id) in c);
    assert forall k: Kind :: k != kind && KeyOf(k, id) in c ==> d[KeyOf(k, id)] == c[KeyOf(k, id)];
    hide KeyOf;
  }

  lemma ViewAfterCut(c: Objects, kind: Kind, id: string)
    ensures View(c - {KeyOf(kind, id)}, id) == View(c, id) - {kind}
  {
    hide NameOf;
    var d := c - {KeyOf(kind, id)};
    assert forall k: Kind :: k != kind ==> (KeyOf(k, id) in d <==> KeyOf(k, id) in c);
    assert forall k: Kind :: k != kind && KeyOf(k, id) in c ==> d[KeyOf(k, id)] == c[KeyOf(k, id)];
    hide KeyOf;
  }

  // ----- what one write may do -----

  // Only one agent's objects are touched, and the order is kept.
  predicate OwnWrite(enforced: bool, before: Objects, after: Objects, id: string) {
    && Ordered(enforced, after)
    && (forall key :: key in before && !IsOwn(key, id) ==> key in after && after[key] == before[key])
    && (forall key :: key in after && !IsOwn(key, id) ==> key in before)
  }

  // What others may do while an agent's Start or Stop is under way.
  predicate Allowed(enforced: bool, before: Objects, after: Objects, id: string) {
    Ordered(enforced, after) && View(after, id) == View(before, id)
  }

  // What the provider does for one agent is among what others may do while it acts for
  // another; so Starts and Stops of different agents may overlap.
  lemma OwnWritesAreAllowed(enforced: bool, before: Objects, after: Objects, a: string, b: string)
    requires TrimSpace(a) != TrimSpace(b)
    ensures OwnWrite(enforced, before, after, a) ==> Allowed(enforced, before, after, b)
  {
    hide Ordered, NameOf, TrimSpace;
    if OwnWrite(enforced, before, after, a) {
      forall kind: Kind
        ensures KeyOf(kind, b) in before <==> KeyOf(kind, b) in after
        ensures KeyOf(kind, b) in before ==> before[KeyOf(kind, b)] == after[KeyOf(kind, b)]
      {
        var key := KeyOf(kind, b);
        assert IsOwn(key, b);
        OwnersAreDistinct(key, a, b);
      }
    }
    hide OwnWrite, KeyOf, IsOwn;
  }
}

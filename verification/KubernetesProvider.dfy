/**
 KubernetesRuntimeProvider (internal/sandbox/kubernetes_provider.go): Start and Stop as
 sequences of calls to the API server, each of which may fail, before or after it took
 effect, and before each of which others may act.
 */
module KubernetesProvider {
  import opened Wrappers
  import opened Labels
  import opened Cluster

  datatype Fault = Healthy | Refused | Unacknowledged

  datatype ApiError = AlreadyExists | NotFound | Failed

  datatype NetworkPolicySpec = NetworkPolicySpec(
    enabled: bool, mode: string, allowBackend: bool, allowVault: bool, allowedEgress: seq<EgressRule>)

  datatype Config = Config(
    images: map<string, string>,
    gatewayUrl: string,
    workspaceSize: string,
    storageClass: string,
    workspacePolicy: string,
    policySpec: NetworkPolicySpec,
    // Library code: resource.ParseQuantity, net.ParseCIDR and unicode.ToLower.
    validSize: string -> bool,
    validCidr: string -> bool,
    lower: char -> char)

  datatype StartRequest = StartRequest(
    agentId: string, ownerId: string, runtime: string, token: string, llmSecretName: string, llmSecretKey: string)

  datatype StartError = Invalid(reason: string) | CallFailed(error: ApiError) | NotReady

  // ----- what Start builds -----

  function NormalRuntime(runtime: string, lower: char -> char): string {
    var r := TrimSpace(Lowered(runtime, lower));
    if r == "" then "nanoclaw" else r
  }

  function SandboxId(id: string): string {
    "sandbox-" + id
  }

  function SecretObject(cfg: Config, r: StartRequest): Object {
    Object(RuntimeLabels(TrimSpace(r.agentId), "", "", cfg.lower), SecretBody(map["token" := TrimSpace(r.token)]))
  }

  function ClaimSize(cfg: Config): string {
    if cfg.workspaceSize == "" then "10Gi" else cfg.workspaceSize
  }

  function ClaimObject(cfg: Config, r: StartRequest): Object {
    Object(RuntimeLabels(r.agentId, "", SandboxId(r.agentId), cfg.lower), ClaimBody(cfg.storageClass, ClaimSize(cfg)))
  }

  predicate Enforced(cfg: Config) {
    cfg.policySpec.enabled && cfg.policySpec.mode != "disabled"
  }

  predicate BadRule(cfg: Config, rule: EgressRule) {
    TrimSpace(rule.cidr) != "" && !cfg.validCidr(TrimSpace(rule.cidr))
  }

  predicate HasBadRule(cfg: Config) {
    exists i :: 0 <= i < |cfg.policySpec.allowedEgress| && BadRule(cfg, cfg.policySpec.allowedEgress[i])
  }

  function Egress(rules: seq<EgressRule>): seq<EgressRule> {
    if rules == [] then []
    else
      var before, rule := Egress(rules[..|rules| - 1]), rules[|rules| - 1];
      if TrimSpace(rule.cidr) == "" then before else before + [rule.(cidr := TrimSpace(rule.cidr))]
  }

  lemma EgressStep(rules: seq<EgressRule>, i: nat)
    requires i < |rules|
    ensures var cidr := TrimSpace(rules[i].cidr);
      Egress(rules[..i + 1]) == Egress(rules[..i]) + if cidr == "" then [] else [rules[i].(cidr := cidr)]
  {
    hide TrimSpace;
    assert rules[..i + 1][..i] == rules[..i];
  }

  function PolicyObject(cfg: Config, r: StartRequest): Object {
    Object(RuntimeLabels(r.agentId, "", SandboxId(r.agentId), cfg.lower),
      PolicyBody(Selector(r.agentId, cfg.lower), cfg.policySpec.allowBackend, cfg.policySpec.allowVault,
        Egress(cfg.policySpec.allowedEgress)))
  }

  function PodObject(cfg: Config, r: StartRequest): Object
    requires NormalRuntime(r.runtime, cfg.lower) in cfg.images
  {
    var runtime := NormalRuntime(r.runtime, cfg.lower);
    Object(PodLabels(r.agentId, runtime, SandboxId(r.agentId), r.ownerId, cfg.lower),
      PodBody(cfg.images[runtime], r.ownerId, cfg.gatewayUrl))
  }

  // What createOrUpdate leaves, by kind: of an object that exists, a claim and a pod keep
  // everything but their labels.
  function Merged(kind: Kind, existing: Option<Object>, obj: Object): Object {
    if existing.None? then obj
    else if kind.Claim? || kind.Pod? then existing.value.(labels := obj.labels)
    else obj
  }

  function Put(v: map<Kind, Object>, kind: Kind, obj: Object): map<Kind, Object> {
    v[kind := Merged(kind, Lookup(v, kind), obj)]
  }

  // The agent's objects after a Start that succeeds.
  function Started(cfg: Config, r: StartRequest, v: map<Kind, Object>): map<Kind, Object>
    requires NormalRuntime(r.runtime, cfg.lower) in cfg.images
  {
    var v1 := Put(Put(v, Secret, SecretObject(cfg, r)), Claim, ClaimObject(cfg, r));
    var v2 := if Enforced(cfg) then Put(v1, Policy, PolicyObject(cfg, r)) else v1;
    Put(v2, Pod, PodObject(cfg, r))
  }

  // Kind by kind.
  lemma StartedIs(cfg: Config, r: StartRequest, v: map<Kind, Object>)
    requires NormalRuntime(r.runtime, cfg.lower) in cfg.images
    ensures var o := Started(cfg, r, v);
      && Lookup(o, Secret) == Some(Merged(Secret, Lookup(v, Secret), SecretObject(cfg, r)))
      && Lookup(o, Claim) == Some(Merged(Claim, Lookup(v, Claim), ClaimObject(cfg, r)))
      && Lookup(o, Pod) == Some(Merged(Pod, Lookup(v, Pod), PodObject(cfg, r)))
      && Lookup(o, Policy) ==
           if Enforced(cfg) then Some(Merged(Policy, Lookup(v, Policy), PolicyObject(cfg, r))) else Lookup(v, Policy)
  {
    hide Merged, SecretObject, ClaimObject, PolicyObject, PodObject, NormalRuntime, Enforced;
  }

  // The pod's traffic is under the policy.
  ghost predicate Guarded(v: map<Kind, Object>) {
    && Policy in v && Pod in v && v[Policy].body.PolicyBody?
    && Matches(v[Policy].body.selector, v[Pod].labels)
  }

  // An agent of the store's, with policies enforced.
  ghost predicate ToGuard(cfg: Config, r: StartRequest) {
    KeepsLabelChars(cfg.lower) && IsStoreId(r.agentId) && cfg.policySpec.enabled && cfg.policySpec.mode != "disabled"
  }

  // Whatever was there before, its Start leaves the pod under the policy, and the policy over no
  // other agent's pod.
  lemma StartGuardsOwnPod(cfg: Config, r: StartRequest, v: map<Kind, Object>, q: StartRequest, w: map<Kind, Object>)
    requires ToGuard(cfg, r) && IsStoreId(q.agentId)
    requires NormalRuntime(r.runtime, cfg.lower) in cfg.images && NormalRuntime(q.runtime, cfg.lower) in cfg.images
    ensures Guarded(Started(cfg, r, v))
    ensures Matches(Started(cfg, r, v)[Policy].body.selector, Started(cfg, q, w)[Pod].labels) <==> q.agentId == r.agentId
  {
    hide KeepsLabelChars, IsStoreId, NormalRuntime, Matches, Selector, PodLabels, RuntimeLabels, Egress, Started;
    var mine, others := NormalRuntime(r.runtime, cfg.lower), NormalRuntime(q.runtime, cfg.lower);
    StartedIs(cfg, r, v);
    StartedIs(cfg, q, w);
    PolicySelectsOwnPod(r.agentId, r.agentId, mine, SandboxId(r.agentId), r.ownerId, cfg.lower);
    PolicySelectsOwnPod(r.agentId, q.agentId, others, SandboxId(q.agentId), q.ownerId, cfg.lower);
  }

  lemma IfGuarded(cfg: Config, r: StartRequest, v: map<Kind, Object>)
    requires NormalRuntime(r.runtime, cfg.lower) in cfg.images
    ensures ToGuard(cfg, r) ==> Guarded(Started(cfg, r, v))
  {
    hide Started, Guarded, Matches;
    if ToGuard(cfg, r) { StartGuardsOwnPod(cfg, r, v, r, v); }
  }

  // What a Start is refused for without asking the API server.
  predicate Rejected(cfg: Config, r: StartRequest) {
    var runtime := NormalRuntime(r.runtime, cfg.lower);
    || TrimSpace(r.agentId) == "" || TrimSpace(r.token) == ""
    || (runtime != "openclaw" && runtime != "nanoclaw")
    || runtime !in cfg.images || TrimSpace(cfg.images[runtime]) == ""
    || !cfg.validSize(ClaimSize(cfg))
    || (Enforced(cfg) && HasBadRule(cfg))
  }

  // strings.EqualFold with an ASCII word; no other character folds to its letters.
  function Folded(c: char): char {
    if 'A' <= c <= 'Z' then c - 'A' + 'a' else c
  }

  predicate DeletesClaim(cfg: Config) {
    Lowered(TrimSpace(cfg.workspacePolicy), Folded) == "delete"
  }

  function Stopped(cfg: Config, v: map<Kind, Object>): map<Kind, Object> {
    v - {Pod, Policy, Secret} - if DeletesClaim(cfg) then {Claim} else {}
  }

  predicate HasKey(c: Objects, name: string, key: string) {
    (Secret, name) in c && c[(Secret, name)].body.SecretBody? && key in c[(Secret, name)].body.data
  }

  // ----- the API server and the provider -----

  // One write that took effect.
  datatype Write = Write(id: string, before: Objects, after: Objects)

  class KubernetesRuntimeProvider {
    const cfg: Config
    const faults: nat -> Fault
    // What others make of the cluster before a call, if they may.
    const others: nat -> Objects
    var objects: Objects
    var calls: nat
    ghost var writes: seq<Write>

    ghost predicate Valid()
      reads this
    {
      && Ordered(Enforced(cfg), objects)
      && forall i :: 0 <= i < |writes| ==> OwnWrite(Enforced(cfg), writes[i].before, writes[i].after, writes[i].id)
    }

    // The agent's objects.
    ghost function Mine(id: string): map<Kind, Object>
      reads this
    {
      View(objects, id)
    }

    // The calls since then were all answered truthfully.
    ghost predicate Calm(since: nat)
      reads this
    {
      forall k :: since <= k < calls ==> faults(k).Healthy?
    }

    // The writes since then were all made for this agent.
    ghost predicate OnlyFor(id: string, before: seq<Write>)
      reads this
    {
      before <= writes && forall i :: |before| <= i < |writes| ==> writes[i].id == id
    }

    constructor (cfg: Config, faults: nat -> Fault, others: nat -> Objects, objects: Objects)
      requires Ordered(Enforced(cfg), objects)
      ensures Valid() && this.cfg == cfg && this.objects == objects
    {
      this.cfg, this.faults, this.others, this.objects, calls, writes := cfg, faults, others, objects, 0, [];
    }

    // Others act, then the call is made.
    method Turn(id: string) returns (fault: Fault)
      requires Valid()
      modifies this`objects, this`calls
      ensures Valid() && Mine(id) == old(Mine(id))
      ensures calls == old(calls) + 1 && fault == faults(old(calls))
    {
      if Allowed(Enforced(cfg), objects, others(calls), id) {
        objects := others(calls);
      }
      fault := faults(calls);
      calls := calls + 1;
    }

    method Apply(id: string, after: Objects)
      requires Valid() && OwnWrite(Enforced(cfg), objects, after, id)
      modifies this`objects, this`writes
      ensures Valid() && objects == after && OnlyFor(id, old(writes))
    {
      writes := writes + [Write(id, objects, after)];
      objects := after;
    }

    method Create(kind: Kind, id: string, obj: Object) returns (err: Option<ApiError>)
      requires Valid() && (kind.Pod? && IsAgentId(id) ==> Secret in Mine(id) && Claim in Mine(id) && (Enforced(cfg) ==> Policy in Mine(id)))
      modifies this
      ensures Valid() && calls == old(calls) + 1 && OnlyFor(id, old(writes))
      ensures match err
        case None => kind !in old(Mine(id)) && Mine(id) == old(Mine(id))[kind := obj]
        case Some(AlreadyExists) => kind in old(Mine(id)) && Mine(id) == old(Mine(id))
        case Some(_) =>
          && !faults(old(calls)).Healthy?
          && (Mine(id) == old(Mine(id)) || (kind !in old(Mine(id)) && Mine(id) == old(Mine(id))[kind := obj]))
    {
      var fault := Turn(id);
      var key := KeyOf(kind, id);
      if fault.Refused? {
        return Some(Failed);
      }
      if key in objects {
        return Some(if fault.Healthy? then AlreadyExists else Failed);
      }
      PutIsOwn(objects, kind, id, obj);
      Apply(id, objects[key := obj]);
      return if fault.Healthy? then None else Some(Failed);
    }

    method Get(kind: Kind, id: string) returns (r: Result<Object, ApiError>)
      requires Valid()
      modifies this`objects, this`calls
      ensures Valid() && calls == old(calls) + 1 && Mine(id) == old(Mine(id))
      ensures match r
        case Ok(obj) => kind in Mine(id) && Mine(id)[kind] == obj
        case Err(NotFound) => kind !in Mine(id)
        case Err(_) => !faults(old(calls)).Healthy?
    {
      var fault := Turn(id);
      var key := KeyOf(kind, id);
      if !fault.Healthy? {
        return Err(Failed);
      }
      r := if key in objects then Ok(objects[key]) else Err(NotFound);
    }

    method Update(kind: Kind, id: string, obj: Object) returns (err: Option<ApiError>)
      requires Valid()
      modifies this
      ensures Valid() && calls == old(calls) + 1 && OnlyFor(id, old(writes))
      ensures match err
        case None => kind in old(Mine(id)) && Mine(id) == old(Mine(id))[kind := obj]
        case Some(NotFound) => kind !in old(Mine(id)) && Mine(id) == old(Mine(id))
        case Some(_) =>
          && !faults(old(calls)).Healthy?
          && (Mine(id) == old(Mine(id)) || (kind in old(Mine(id)) && Mine(id) == old(Mine(id))[kind := obj]))
    {
      var fault := Turn(id);
      var key := KeyOf(kind, id);
      if fault.Refused? {
        return Some(Failed);
      }
      if key !in objects {
        return Some(if fault.Healthy? then NotFound else Failed);
      }
      ReplacingIsOwn(objects, kind, id, obj);
      Apply(id, objects[key := obj]);
      return if fault.Healthy? then None else Some(Failed);
    }

    method Delete(kind: Kind, id: string) returns (err: Option<ApiError>)
      requires Valid() && IsAgentId(id) && (kind.Pod? || Pod !in Mine(id))
      modifies this
      ensures Valid() && calls == old(calls) + 1 && OnlyFor(id, old(writes))
      ensures match err
        case None => kind in old(Mine(id)) && Mine(id) == old(Mine(id)) - {kind}
        case Some(NotFound) => kind !in old(Mine(id)) && Mine(id) == old(Mine(id))
        case Some(_) =>
          && !faults(old(calls)).Healthy?
          && (Mine(id) == old(Mine(id)) || (kind in old(Mine(id)) && Mine(id) == old(Mine(id)) - {kind}))
    {
      var fault := Turn(id);
      var key := KeyOf(kind, id);
      if fault.Refused? {
        return Some(Failed);
      }
      if key !in objects {
        return Some(if fault.Healthy? then NotFound else Failed);
      }
      CutIsOwn(objects, kind, id);
      Apply(id, objects - {key});
      return if fault.Healthy? then None else Some(Failed);
    }

    // ----- createOrUpdate, kubernetes_provider.go:389-469 -----

    method CreateOrUpdateSecret(id: string, secret: Object) returns (err: Option<ApiError>)
      requires Valid()
      modifies this
      ensures Valid() && calls > old(calls) && OnlyFor(id, old(writes))
      ensures Mine(id) == Put(old(Mine(id)), Secret, secret) || (err.Some? && Mine(id) == old(Mine(id)))
      ensures err.Some? ==> !Calm(old(calls))
    {
      err := Create(Secret, id, secret);
      if err.None? || !err.value.AlreadyExists? {
        return;
      }
      var existing := Get(Secret, id);
      if existing.Err? {
        return Some(existing.error);
      }
      err := Update(Secret, id, existing.value.(body := secret.body, labels := secret.labels));
    }

    method CreateOrUpdateClaim(id: string, claim: Object) returns (err: Option<ApiError>)
      requires Valid()
      modifies this
      ensures Valid() && calls > old(calls) && OnlyFor(id, old(writes))
      ensures Mine(id) == Put(old(Mine(id)), Claim, claim) || (err.Some? && Mine(id) == old(Mine(id)))
      ensures err.Some? ==> !Calm(old(calls))
    {
      err := Create(Claim, id, claim);
      if err.None? || !err.value.AlreadyExists? {
        return;
      }
      var existing := Get(Claim, id);
      if existing.Err? {
        return Some(existing.error);
      }
      err := Update(Claim, id, existing.value.(labels := claim.labels));
    }

    method CreateOrUpdatePolicy(id: string, policy: Option<Object>) returns (err: Option<ApiError>)
      requires Valid()
      modifies this
      ensures Valid() && calls >= old(calls) && OnlyFor(id, old(writes))
      ensures Mine(id) == (if policy.Some? then Put(old(Mine(id)), Policy, policy.value) else old(Mine(id)))
        || (err.Some? && Mine(id) == old(Mine(id)))
      ensures err.Some? ==> !Calm(old(calls))
    {
      if policy.None? {
        return None;
      }
      err := Create(Policy, id, policy.value);
      if err.None? || !err.value.AlreadyExists? {
        return;
      }
      var existing := Get(Policy, id);
      if existing.Err? {
        return Some(existing.error);
      }
      err := Update(Policy, id, existing.value.(labels := policy.value.labels, body := policy.value.body));
    }

    method CreateOrUpdatePod(id: string, pod: Object) returns (err: Option<ApiError>)
      requires Valid() && Secret in Mine(id) && Claim in Mine(id) && (Enforced(cfg) ==> Policy in Mine(id))
      modifies this
      ensures Valid() && calls > old(calls) && OnlyFor(id, old(writes))
      ensures Mine(id) == Put(old(Mine(id)), Pod, pod) || (err.Some? && Mine(id) == old(Mine(id)))
      ensures err.Some? ==> !Calm(old(calls))
    {
      err := Create(Pod, id, pod);
      if err.None? || !err.value.AlreadyExists? {
        return;
      }
      var existing := Get(Pod, id);
      if existing.Err? {
        return Some(existing.error);
      }
      err := Update(Pod, id, existing.value.(labels := pod.labels));
    }

    // kubernetes_provider.go:359-364.
    method DeleteIgnoreNotFound(kind: Kind, id: string) returns (err: Option<ApiError>)
      requires Valid() && IsAgentId(id) && (kind.Pod? || Pod !in Mine(id))
      modifies this
      ensures Valid() && calls > old(calls) && OnlyFor(id, old(writes))
      ensures Mine(id) == old(Mine(id)) - {kind} || (err.Some? && Mine(id) == old(Mine(id)))
      ensures err.Some? ==> !Calm(old(calls))
    {
      err := Delete(kind, id);
      if err == Some(NotFound) {
        err := None;
      }
    }

    // networkpolicy.go:73-119.
    method BuildPolicy(r: StartRequest) returns (policy: Result<Option<Object>, StartError>)
      ensures policy.Err? <==> Enforced(cfg) && HasBadRule(cfg)
      ensures policy.Ok? ==> policy.value == if Enforced(cfg) then Some(PolicyObject(cfg, r)) else None
      ensures policy.Err? ==> policy.error.Invalid?
    {
      hide TrimSpace, RuntimeLabels, Selector;
      if !cfg.policySpec.enabled || cfg.policySpec.mode == "disabled" {
        return Ok(None);
      }
      var rules := cfg.policySpec.allowedEgress;
      var egress: seq<EgressRule> := [];
      for i := 0 to |rules|
        invariant egress == Egress(rules[..i])
        invariant forall j :: 0 <= j < i ==> !BadRule(cfg, rules[j])
      {
        EgressStep(rules, i);
        var cidr := TrimSpace(rules[i].cidr);
        if cidr == "" {
          continue;
        }
        if !cfg.validCidr(cidr) {
          assert BadRule(cfg, rules[i]);
          return Err(Invalid("invalid cidr"));
        }
        egress := egress + [rules[i].(cidr := cidr)];
      }
      assert rules[..|rules|] == rules;
      return Ok(Some(Object(RuntimeLabels(r.agentId, "", SandboxId(r.agentId), cfg.lower),
        PolicyBody(Selector(r.agentId, cfg.lower), cfg.policySpec.allowBackend, cfg.policySpec.allowVault, egress))));
    }

    // kubernetes_provider.go:314-326.
    method ValidateSecretKey(id: string, name: string, key: string) returns (err: Option<StartError>)
      requires Valid()
      modifies this`objects, this`calls
      ensures Valid() && Mine(id) == old(Mine(id)) && calls == old(calls) + 1
      ensures err.Some? ==> !err.value.NotReady?
      ensures err.None? ==> HasKey(objects, name, key)
      ensures err.Some? && Calm(old(calls)) ==> !HasKey(objects, name, key)
    {
      var fault := Turn(id);
      if !fault.Healthy? {
        return Some(CallFailed(Failed));
      }
      if (Secret, name) !in objects {
        return Some(CallFailed(NotFound));
      }
      var secret := objects[(Secret, name)];
      if secret.body.SecretBody? && key in secret.body.data {
        return None;
      }
      return Some(Invalid("key not found"));
    }

    // kubernetes_provider.go:90-133: everything that can refuse a Start before it writes.
    method Prepare(r: StartRequest) returns (policy: Result<Option<Object>, StartError>)
      requires Valid()
      modifies this`objects, this`calls
      ensures Valid() && Mine(r.agentId) == old(Mine(r.agentId)) && calls >= old(calls)
      ensures Rejected(cfg, r) ==> policy.Err? && policy.error.Invalid? && calls == old(calls)
      ensures policy.Err? ==> !policy.error.NotReady?
      ensures policy.Ok? ==> !Rejected(cfg, r) && NormalRuntime(r.runtime, cfg.lower) in cfg.images
      ensures !Rejected(cfg, r) && policy.Err? ==> r.llmSecretName != "" && r.llmSecretKey != ""
      ensures policy.Ok? && r.llmSecretName != "" && r.llmSecretKey != "" ==>
        HasKey(objects, r.llmSecretName, r.llmSecretKey)
      ensures !Rejected(cfg, r) && policy.Err? && Calm(old(calls)) ==>
        !HasKey(objects, r.llmSecretName, r.llmSecretKey)
      ensures policy.Ok? ==> policy.value == if Enforced(cfg) then Some(PolicyObject(cfg, r)) else None
    {
      hide TrimSpace, PolicyObject, Enforced, HasBadRule, Lowered;
      if TrimSpace(r.agentId) == "" || TrimSpace(r.token) == "" {
        return Err(Invalid("agent id and runtime token are required"));
      }
      var runtime := NormalRuntime(r.runtime, cfg.lower);
      if runtime != "openclaw" && runtime != "nanoclaw" {
        return Err(Invalid("unsupported runtime"));
      }
      if runtime !in cfg.images || TrimSpace(cfg.images[runtime]) == "" {
        return Err(Invalid("missing runtime image"));
      }
      if !cfg.validSize(ClaimSize(cfg)) {
        return Err(Invalid("invalid workspace size"));
      }
      policy := BuildPolicy(r);
      if policy.Err? {
        return;
      }
      if r.llmSecretName != "" && r.llmSecretKey != "" {
        var err := ValidateSecretKey(r.agentId, r.llmSecretName, r.llmSecretKey);
        if err.Some? {
          return Err(err.value);
        }
      }
    }

    // ----- Start and Stop -----

    // Whether the pod becomes ready in time is given.
    method Start(r: StartRequest, becomesReady: bool) returns (lease: Result<string, StartError>)
      requires Valid()
      modifies this
      ensures Valid() && OnlyFor(r.agentId, old(writes))
      ensures Rejected(cfg, r) ==> lease.Err? && lease.error.Invalid? && calls == old(calls)
      ensures lease.Err? && lease.error.Invalid? ==> writes == old(writes) && Mine(r.agentId) == old(Mine(r.agentId))
      ensures lease.Ok? || lease.error.NotReady? ==>
        !Rejected(cfg, r) && Mine(r.agentId) == Started(cfg, r, old(Mine(r.agentId)))
      ensures lease.Ok? ==> becomesReady && lease.value == "agent-" + r.agentId
      ensures lease.Ok? && ToGuard(cfg, r) ==> Guarded(Mine(r.agentId))
      ensures lease.Err? && lease.error.CallFailed? ==> writes == old(writes) || !Calm(old(calls))
      // Nothing else stops a Start that asks for no model secret.
      ensures !Rejected(cfg, r) && (r.llmSecretName == "" || r.llmSecretKey == "") && Calm(old(calls)) ==>
        lease == if becomesReady then Ok("agent-" + r.agentId) else Err(NotReady)
      ensures old(Mine(r.agentId)).Keys <= Mine(r.agentId).Keys
    {
      var id := r.agentId;
      hide Rejected, SecretObject, ClaimObject, PolicyObject, PodObject, Valid, Mine, NormalRuntime, Merged, ToGuard, Guarded;
      var policy := Prepare(r);
      if policy.Err? {
        return Err(policy.error);
      }
      var err := CreateOrUpdateSecret(id, SecretObject(cfg, r));
      if err.Some? {
        return Err(CallFailed(err.value));
      }
      err := CreateOrUpdateClaim(id, ClaimObject(cfg, r));
      if err.Some? {
        return Err(CallFailed(err.value));
      }
      err := CreateOrUpdatePolicy(id, policy.value);
      if err.Some? {
        return Err(CallFailed(err.value));
      }
      err := CreateOrUpdatePod(id, PodObject(cfg, r));
      if err.Some? {
        return Err(CallFailed(err.value));
      }
      IfGuarded(cfg, r, old(Mine(id)));
      return if becomesReady then Ok(NameOf(Pod, id)) else Err(NotReady);
    }

    // One Stop whose calls are all answered truthfully clears what any failed Start or Stop
    // left; but for the claim, if that is to be retained.
    method Stop(agentId: string) returns (err: Option<StartError>)
      requires Valid()
      modifies this
      ensures var id := TrimSpace(agentId);
        && Valid() && OnlyFor(id, old(writes))
        && (id == "" ==> err.Some? && writes == old(writes) && calls == old(calls))
        && (err.None? ==> Mine(id) == Stopped(cfg, old(Mine(id))))
        && (err.Some? && id != "" ==> !Calm(old(calls)))
        && Stopped(cfg, old(Mine(id))).Keys <= Mine(id).Keys <= old(Mine(id)).Keys
    {
      hide TrimSpace, IsAgentId, Valid, Mine, DeletesClaim;
      var id := TrimSpace(agentId);
      if id == "" {
        return Some(Invalid("agent id is required"));
      }
      TrimmedIsAgentId(agentId);
      var e := DeleteIgnoreNotFound(Pod, id);
      if e.Some? {
        return Some(CallFailed(e.value));
      }
      e := DeleteIgnoreNotFound(Policy, id);
      if e.Some? {
        return Some(CallFailed(e.value));
      }
      e := DeleteIgnoreNotFound(Secret, id);
      if e.Some? {
        return Some(CallFailed(e.value));
      }
      if DeletesClaim(cfg) {
        e := DeleteIgnoreNotFound(Claim, id);
        if e.Some? {
          return Some(CallFailed(e.value));
        }
      }
      return None;
    }

    lemma PutIsOwn(c: Objects, kind: Kind, id: string, obj: Object)
      requires Ordered(Enforced(cfg), c) && (kind.Pod? && IsAgentId(id) ==> Ready(Enforced(cfg), c, id))
      ensures OwnWrite(Enforced(cfg), c, c[KeyOf(kind, id) := obj], id)
      ensures View(c[KeyOf(kind, id) := obj], id) == View(c, id)[kind := obj]
    {
      AddingKeepsOrder(Enforced(cfg), c, kind, id, obj);
      ViewAfterPut(c, kind, id, obj);
      hide Ordered, Ready, NameOf, IsAgentId, View;
    }

    lemma ReplacingIsOwn(c: Objects, kind: Kind, id: string, obj: Object)
      requires Ordered(Enforced(cfg), c) && KeyOf(kind, id) in c
      ensures OwnWrite(Enforced(cfg), c, c[KeyOf(kind, id) := obj], id)
      ensures View(c[KeyOf(kind, id) := obj], id) == View(c, id)[kind := obj]
    {
      hide Ordered, Ready, NameOf, IsAgentId, OwnWrite, View;
      if kind.Pod? && IsAgentId(id) { OrderedMeans(Enforced(cfg), c, id); }
      PutIsOwn(c, kind, id, obj);
    }

    lemma CutIsOwn(c: Objects, kind: Kind, id: string)
      requires Ordered(Enforced(cfg), c) && IsAgentId(id) && (kind.Pod? || KeyOf(Pod, id) !in c)
      ensures OwnWrite(Enforced(cfg), c, c - {KeyOf(kind, id)}, id)
      ensures View(c - {KeyOf(kind, id)}, id) == View(c, id) - {kind}
    {
      RemovingKeepsOrder(Enforced(cfg), c, kind, id);
      ViewAfterCut(c, kind, id);
      hide Ordered, NameOf, IsAgentId, View;
    }
  }
}

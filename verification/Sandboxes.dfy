/**
 What a sandbox is after a Start and a Stop (internal/sandbox/kubernetes_provider.go, podspec.go,
 networkpolicy.go, secrets.go), told of the request and the configuration.
 */
module Sandboxes {
  import opened Wrappers
  import opened Labels
  import opened Cluster
  import opened KubernetesProvider

  // ----- blanks -----

  predicate Blank(s: string) {
    forall i :: 0 <= i < |s| ==> IsSpace(s[i])
  }

  lemma BlankOfMore(s: string, c: char)
    ensures Blank(s + [c]) <==> Blank(s) && IsSpace(c)
  {
    hide IsSpace;
    var more := s + [c];
    assert more[|s|] == c && forall i :: 0 <= i < |s| ==> more[i] == s[i];
  }

  lemma BlankOfTail(s: string)
    requires s != ""
    ensures Blank(s) <==> IsSpace(s[0]) && Blank(s[1..])
  {
    hide IsSpace;
    var tail := s[1..];
    assert forall i :: 0 <= i < |tail| ==> tail[i] == s[i + 1];
    assert forall i :: 0 < i < |s| ==> s[i] == tail[i - 1];
  }

  lemma {:induction false} TrimRightIsEmptyIff(s: string)
    ensures TrimRight(s, Spaces) == "" <==> Blank(s)
  {
    hide IsSpace, Blank;
    if s == "" {
      EmptyIsBlank();
    } else {
      var front := s[..|s| - 1];
      TrimRightIsEmptyIff(front);
      BlankOfMore(front, s[|s| - 1]);
      assert s == front + [s[|s| - 1]];
    }
  }

  lemma EmptyIsBlank()
    ensures Blank("")
  {
  }

  lemma {:induction false} TrimLeftIsBlankIff(s: string)
    ensures Blank(TrimLeft(s, Spaces)) <==> Blank(s)
  {
    hide IsSpace, Blank;
    if s != "" && In(s[0], Spaces) {
      TrimLeftIsBlankIff(s[1..]);
      BlankOfTail(s);
    }
  }

  lemma TrimIsEmptyIff(s: string)
    ensures TrimSpace(s) == "" <==> Blank(s)
  {
    TrimLeftIsBlankIff(s);
    TrimRightIsEmptyIff(TrimLeft(s, Spaces));
    hide TrimLeft, TrimRight, Blank;
  }

  // ----- what is asked for -----

  predicate IsFlavor(runtime: string) {
    runtime == "nanoclaw" || runtime == "openclaw"
  }

  lemma FlavorsAreLabels(runtime: string)
    requires IsFlavor(runtime)
    ensures ValidLabel(runtime)
  {
  }

  // A flavor is taken as it is, and none is nanoclaw.
  lemma FlavorIsKept(runtime: string, lower: char -> char)
    requires KeepsLabelChars(lower)
    ensures IsFlavor(runtime) ==> NormalRuntime(runtime, lower) == runtime
    ensures runtime == "" ==> NormalRuntime(runtime, lower) == "nanoclaw"
  {
    if IsFlavor(runtime) {
      FlavorsAreLabels(runtime);
      LoweredKeeps(runtime, lower);
      EdgesAreNoSpace(runtime);
      TrimmedAlready(runtime, Spaces);
      hide IsSpace, Trim, Lowered, KeepsLabelChars;
    } else {
      assert Lowered("", lower) == "";
    }
  }

  // A Start is refused at once if and only if the agent id or the token is blank, the runtime is
  // unknown or has no image, the size of the workspace is malformed, or policies are enforced and
  // a rule that is not blank has a malformed CIDR.
  lemma RejectedIff(cfg: Config, r: StartRequest, runtime: string)
    requires runtime == NormalRuntime(r.runtime, cfg.lower)
    ensures Rejected(cfg, r) <==>
      || Blank(r.agentId) || Blank(r.token)
      || !IsFlavor(runtime) || runtime !in cfg.images || Blank(cfg.images[runtime])
      || !cfg.validSize(if cfg.workspaceSize == "" then "10Gi" else cfg.workspaceSize)
      || (cfg.policySpec.enabled && cfg.policySpec.mode != "disabled" && exists rule ::
            rule in cfg.policySpec.allowedEgress && !Blank(rule.cidr) && !cfg.validCidr(TrimSpace(rule.cidr)))
  {
    TrimIsEmptyIff(r.agentId);
    TrimIsEmptyIff(r.token);
    if runtime in cfg.images { TrimIsEmptyIff(cfg.images[runtime]); }
    BadRuleIff(cfg);
    hide TrimSpace, Blank, NormalRuntime, HasBadRule;
  }

  lemma BadRuleIff(cfg: Config)
    ensures HasBadRule(cfg) <==> exists rule ::
      rule in cfg.policySpec.allowedEgress && !Blank(rule.cidr) && !cfg.validCidr(TrimSpace(rule.cidr))
  {
    var rules := cfg.policySpec.allowedEgress;
    forall i | 0 <= i < |rules| ensures BadRule(cfg, rules[i]) <==> !Blank(rules[i].cidr) && !cfg.validCidr(TrimSpace(rules[i].cidr)) {
      TrimIsEmptyIff(rules[i].cidr);
    }
    hide TrimSpace, Blank, BadRule;
    if rule :| rule in rules && !Blank(rule.cidr) && !cfg.validCidr(TrimSpace(rule.cidr)) {
      var i :| 0 <= i < |rules| && rules[i] == rule;
      assert BadRule(cfg, rules[i]);
    }
  }

  // ----- what a Start leaves -----

  ghost predicate Accepted(cfg: Config, r: StartRequest) {
    && KeepsLabelChars(cfg.lower) && IsStoreId(r.agentId) && IsStoreId(r.ownerId)
    && IsFlavor(r.runtime) && r.runtime in cfg.images
  }

  // The pod carries the agent's, the runtime's, the sandbox's and the owner's label. A new one
  // runs the runtime's image and is told its owner and the gateway; of one that was there, what it
  // runs is kept.
  lemma PodIsAsAsked(cfg: Config, r: StartRequest, v: map<Kind, Object>)
    requires Accepted(cfg, r)
    ensures NormalRuntime(r.runtime, cfg.lower) == r.runtime && Pod in Started(cfg, r, v)
    ensures var labels := Started(cfg, r, v)[Pod].labels;
      && Lookup(labels, "shclop.io/agent-id") == Some(r.agentId)
      && Lookup(labels, "shclop.io/runtime-flavor") == Some(r.runtime)
      && Lookup(labels, "shclop.io/sandbox-id") == Some("sandbox-" + r.agentId)
      && Lookup(labels, "shclop.io/owner-id") == Some(r.ownerId)
      && Lookup(labels, "app.kubernetes.io/name") == Some("shclop-agent-runtime")
      && Lookup(labels, "app.kubernetes.io/component") == Some("agent-runtime")
    ensures Started(cfg, r, v)[Pod].body ==
      if Pod in v then v[Pod].body else PodBody(cfg.images[r.runtime], r.ownerId, cfg.gatewayUrl)
  {
    hide KeepsLabelChars, IsStoreId, NormalRuntime, PodLabels, RuntimeLabels, Egress, Selector, Started;
    FlavorIsKept(r.runtime, cfg.lower);
    LabelsAre(r.agentId, r.runtime, r.ownerId, cfg.lower);
    StartedIs(cfg, r, v);
  }

  lemma LabelsAre(agentId: string, runtime: string, owner: string, lower: char -> char)
    requires KeepsLabelChars(lower) && IsStoreId(agentId) && IsStoreId(owner) && IsFlavor(runtime)
    ensures var labels := PodLabels(agentId, runtime, "sandbox-" + agentId, owner, lower);
      && Lookup(labels, "shclop.io/agent-id") == Some(agentId)
      && Lookup(labels, "shclop.io/runtime-flavor") == Some(runtime)
      && Lookup(labels, "shclop.io/sandbox-id") == Some("sandbox-" + agentId)
      && Lookup(labels, "shclop.io/owner-id") == Some(owner)
      && Lookup(labels, "app.kubernetes.io/name") == Some("shclop-agent-runtime")
      && Lookup(labels, "app.kubernetes.io/component") == Some("agent-runtime")
  {
    hide LabelValue, ValidLabel, IsStoreId, KeepsLabelChars;
    StoreIdsAreLabels(agentId);
    StoreIdsAreLabels(owner);
    FlavorsAreLabels(runtime);
    SandboxIsLabel(agentId);
    LabelValueKeepsIff(agentId, lower);
    LabelValueKeepsIff(owner, lower);
    LabelValueKeepsIff(runtime, lower);
    LabelValueKeepsIff("sandbox-" + agentId, lower);
    LabelsOf(agentId, runtime, "sandbox-" + agentId, owner, lower);
  }

  // Four values that are labels themselves.
  lemma LabelsOf(agentId: string, runtime: string, sandboxId: string, owner: string, lower: char -> char)
    requires LabelValue(agentId, lower) == agentId != "" && LabelValue(runtime, lower) == runtime != ""
    requires LabelValue(sandboxId, lower) == sandboxId != "" && LabelValue(owner, lower) == owner != ""
    ensures var labels := PodLabels(agentId, runtime, sandboxId, owner, lower);
      && Lookup(labels, "shclop.io/agent-id") == Some(agentId)
      && Lookup(labels, "shclop.io/runtime-flavor") == Some(runtime)
      && Lookup(labels, "shclop.io/sandbox-id") == Some(sandboxId)
      && Lookup(labels, "shclop.io/owner-id") == Some(owner)
      && Lookup(labels, "app.kubernetes.io/name") == Some("shclop-agent-runtime")
      && Lookup(labels, "app.kubernetes.io/component") == Some("agent-runtime")
  {
    KeysDiffer();
    hide LabelValue;
  }

  lemma SandboxIsLabel(id: string)
    requires IsStoreId(id)
    ensures ValidLabel("sandbox-" + id)
  {
  }

  lemma KeysDiffer()
    ensures "shclop.io/agent-id" != "shclop.io/runtime-flavor" && "shclop.io/agent-id" != "shclop.io/sandbox-id"
    ensures "shclop.io/agent-id" != "shclop.io/owner-id" && "shclop.io/runtime-flavor" != "shclop.io/sandbox-id"
    ensures "shclop.io/runtime-flavor" != "shclop.io/owner-id" && "shclop.io/sandbox-id" != "shclop.io/owner-id"
    ensures "app.kubernetes.io/name" != "app.kubernetes.io/component"
    ensures "shclop.io/agent-id"[0] == "shclop.io/runtime-flavor"[0] == "shclop.io/sandbox-id"[0] == "shclop.io/owner-id"[0] == 's'
    ensures "app.kubernetes.io/name"[0] == "app.kubernetes.io/component"[0] == 'a'
  {
    assert "shclop.io/agent-id"[10] == 'a' && "shclop.io/runtime-flavor"[10] == 'r';
    assert "shclop.io/sandbox-id"[10] == 's' && "shclop.io/owner-id"[10] == 'o';
    assert "app.kubernetes.io/name"[18] == 'n' && "app.kubernetes.io/component"[18] == 'c';
  }

  // Everything is named after the agent and carries its label.
  lemma ObjectsAreNamed(cfg: Config, r: StartRequest, v: map<Kind, Object>)
    requires Accepted(cfg, r) && NormalRuntime(r.runtime, cfg.lower) in cfg.images
    ensures KeyOf(Pod, r.agentId) == (Pod, "agent-" + r.agentId)
    ensures KeyOf(Secret, r.agentId) == (Secret, "shclop-runtime-token-" + r.agentId)
    ensures KeyOf(Claim, r.agentId) == (Claim, "shclop-workspace-" + r.agentId)
    ensures KeyOf(Policy, r.agentId) == (Policy, "shclop-runtime-netpol-" + r.agentId)
    ensures forall kind: Kind :: kind in Started(cfg, r, v) && kind in {Secret, Claim, Pod} ==>
      Lookup(Started(cfg, r, v)[kind].labels, "shclop.io/agent-id") == Some(r.agentId)
    ensures cfg.policySpec.enabled && cfg.policySpec.mode != "disabled" ==>
      Policy in Started(cfg, r, v)
      && Lookup(Started(cfg, r, v)[Policy].labels, "shclop.io/agent-id") == Some(r.agentId)
  {
    hide KeepsLabelChars, IsStoreId, NormalRuntime, PodLabels, RuntimeLabels, Egress, Selector, Started, TrimSpace, IsFlavor;
    StoreIdIsTrimmed(r.agentId);
    StartedIs(cfg, r, v);
    var runtime := NormalRuntime(r.runtime, cfg.lower);
    AgentIsLabelled(r.agentId, "", "", cfg.lower);
    AgentIsLabelled(r.agentId, "", SandboxId(r.agentId), cfg.lower);
    AgentIsLabelled(r.agentId, runtime, SandboxId(r.agentId), cfg.lower);
    PodIsAsAsked(cfg, r, v);
  }

  lemma StoreIdIsTrimmed(id: string)
    requires IsStoreId(id)
    ensures TrimSpace(id) == id
  {
    StoreIdsAreLabels(id);
    EdgesAreNoSpace(id);
    TrimmedAlready(id, Spaces);
    hide Trim, IsSpace;
  }

  lemma AgentIsLabelled(agentId: string, runtime: string, sandboxId: string, lower: char -> char)
    requires KeepsLabelChars(lower) && IsStoreId(agentId)
    ensures Lookup(RuntimeLabels(agentId, runtime, sandboxId, lower), "shclop.io/agent-id") == Some(agentId)
  {
    hide LabelValue, ValidLabel, IsStoreId, KeepsLabelChars;
    StoreIdsAreLabels(agentId);
    LabelValueKeepsIff(agentId, lower);
    KeysDiffer();
  }

  // The secret holds exactly the trimmed token.
  lemma SecretIsToken(cfg: Config, r: StartRequest, v: map<Kind, Object>)
    requires NormalRuntime(r.runtime, cfg.lower) in cfg.images
    ensures var o := Started(cfg, r, v);
      Secret in o && o[Secret].body == SecretBody(map["token" := TrimSpace(r.token)])
  {
    hide TrimSpace, NormalRuntime, PodLabels, RuntimeLabels, Egress, Selector, Started;
    StartedIs(cfg, r, v);
  }

  // A new workspace has the configured class and size, 10Gi if none is; one that was there is kept.
  lemma WorkspaceIsKept(cfg: Config, r: StartRequest, v: map<Kind, Object>)
    requires NormalRuntime(r.runtime, cfg.lower) in cfg.images
    ensures var o := Started(cfg, r, v);
      && Claim in o
      && o[Claim].body ==
           if Claim in v then v[Claim].body
           else ClaimBody(cfg.storageClass, if cfg.workspaceSize == "" then "10Gi" else cfg.workspaceSize)
  {
    hide TrimSpace, NormalRuntime, PodLabels, RuntimeLabels, Egress, Selector, Started;
    StartedIs(cfg, r, v);
  }

  // `at` are the places of the rules that are not blank, in order, and `out` what they come to.
  ghost predicate Selects(out: seq<EgressRule>, rules: seq<EgressRule>, at: seq<nat>) {
    && |at| == |out|
    && (forall k :: 0 <= k < |at| ==> at[k] < |rules|)
    && (forall k, l :: 0 <= k < l < |at| ==> at[k] < at[l])
    && (forall i: nat :: i < |rules| ==> (i in at <==> !Blank(rules[i].cidr)))
    && (forall k :: 0 <= k < |out| ==> out[k] == rules[at[k]].(cidr := TrimSpace(rules[at[k]].cidr)))
  }

  // It has the two allowances of the configuration and its rules, trimmed, in order and without
  // the blank ones.
  ghost predicate FollowsSpec(policy: Option<Object>, spec: NetworkPolicySpec) {
    && policy.Some? && policy.value.body.PolicyBody?
    && policy.value.body.allowBackend == spec.allowBackend
    && policy.value.body.allowVault == spec.allowVault
    && exists at :: Selects(policy.value.body.egress, spec.allowedEgress, at)
  }

  // The policy is as configured; when policies are not enforced, none is written.
  lemma PolicyIsAsConfigured(cfg: Config, r: StartRequest, v: map<Kind, Object>)
    requires NormalRuntime(r.runtime, cfg.lower) in cfg.images
    ensures var policy := Lookup(Started(cfg, r, v), Policy);
      if cfg.policySpec.enabled && cfg.policySpec.mode != "disabled" then FollowsSpec(policy, cfg.policySpec)
      else policy == Lookup(v, Policy)
  {
    hide TrimSpace, NormalRuntime, PodLabels, RuntimeLabels, Egress, Selector, Selects, Started;
    var at := EgressSelects(cfg.policySpec.allowedEgress);
    StartedIs(cfg, r, v);
  }

  lemma {:induction false} EgressSelects(rules: seq<EgressRule>) returns (at: seq<nat>)
    ensures Selects(Egress(rules), rules, at)
  {
    hide TrimSpace, Blank, Selects;
    at := [];
    if rules == [] {
      NothingSelects();
    } else {
      var last := |rules| - 1;
      at := EgressSelects(rules[..last]);
      TrimIsEmptyIff(rules[last].cidr);
      assert rules == rules[..last] + [rules[last]];
      SelectsMore(Egress(rules[..last]), rules[..last], at, rules[last]);
      if !Blank(rules[last].cidr) { at := at + [last]; }
    }
  }

  lemma NothingSelects()
    ensures Selects([], [], [])
  {
  }

  lemma SelectsMore(out: seq<EgressRule>, rules: seq<EgressRule>, at: seq<nat>, rule: EgressRule)
    requires Selects(out, rules, at)
    ensures if Blank(rule.cidr) then Selects(out, rules + [rule], at)
            else Selects(out + [rule.(cidr := TrimSpace(rule.cidr))], rules + [rule], at + [|rules|])
  {
    hide TrimSpace, Blank;
  }

  // ----- what a Stop leaves -----

  predicate IsDelete(workspacePolicy: string) {
    var p := TrimSpace(workspacePolicy);
    |p| == 6 && p[0] in {'d', 'D'} && p[1] in {'e', 'E'} && p[2] in {'l', 'L'}
             && p[3] in {'e', 'E'} && p[4] in {'t', 'T'} && p[5] in {'e', 'E'}
  }

  // A Stop leaves nothing but the workspace, and that if and only if it is not to be deleted.
  lemma StopKeepsWorkspaceIff(cfg: Config, v: map<Kind, Object>)
    ensures var o := Stopped(cfg, v);
      && Pod !in o && Policy !in o && Secret !in o
      && Lookup(o, Claim) == if IsDelete(cfg.workspacePolicy) then None else Lookup(v, Claim)
  {
    hide TrimSpace;
    var p := TrimSpace(cfg.workspacePolicy);
    var q := Lowered(p, Folded);
    if |p| == 6 {
      assert forall i :: 0 <= i < 6 ==> q[i] == Folded(p[i]);
      if IsDelete(cfg.workspacePolicy) { assert q == "delete"; }
    }
  }
}

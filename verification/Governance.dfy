/** The harness governor: what a request for tools is granted under a profile and a policy. */
module Governance {
  import opened Capabilities
  import opened ListLaws
  import opened Values

  datatype Mode = Standard | Core

  datatype Profile = Profile(allowedTools: seq<string>, network: Access)

  /** `high` is the risk threshold; `allowUnknown` the policy's `allow_unknown_tools`. */
  datatype Policy = Policy(mode: Mode, high: real, allowUnknown: bool)

  /** What the query's keywords say about it. */
  datatype Query = Query(explores: bool, runsCode: bool)

  datatype Level = Low | Medium | High

  datatype Decision = Decision(allowed: bool, level: Level, score: real, granted: seq<string>)

  function NormalizeTools(tools: seq<string>): seq<string> {
    CleanTexts(tools)
  }

  predicate NetworkAllowed(profile: Access, capability: Access) {
    capability.NoNetwork? || (profile.ToolMediated? && capability.ToolMediated?)
  }

  /** The ids that may be granted. */
  function PermittedIds(allowUnknown: bool, allowed: seq<string>, ids: seq<string>): seq<string> {
    if ids == [] then []
    else (if allowUnknown || ids[0] in allowed then [ids[0]] else []) + PermittedIds(allowUnknown, allowed, ids[1..])
  }

  function OutsideIds(allowed: seq<string>, ids: seq<string>): seq<string> {
    if ids == [] then [] else (if ids[0] in allowed then [] else [ids[0]]) + OutsideIds(allowed, ids[1..])
  }

  function BeyondNetwork(profile: Access, cs: seq<Capability>): seq<string> {
    if cs == [] then []
    else (if NetworkAllowed(profile, cs[0].network) then [] else [cs[0].id]) + BeyondNetwork(profile, cs[1..])
  }

  predicate SomeNetwork(cs: seq<Capability>) {
    exists c :: c in cs && !c.network.NoNetwork?
  }

  predicate SomeCode(cs: seq<Capability>) {
    exists c :: c in cs && c.executesCode
  }

  function AllowedIds(capabilities: seq<Capability>, profile: Profile): seq<string> {
    IdsOf(Resolved(capabilities, profile.allowedTools))
  }

  /** Nothing requested is unknown, outside the profile, or beyond its network access. */
  predicate Authorized(capabilities: seq<Capability>, profile: Profile, tools: seq<string>) {
    var requested := NormalizeTools(tools);
    && Unknown(capabilities, requested) == []
    && forall c :: c in Resolved(capabilities, requested) ==>
         c.id in AllowedIds(capabilities, profile) && NetworkAllowed(profile.network, c.network)
  }

  function Max(a: real, b: real): real {
    if a < b then b else a
  }

  function Min(a: real, b: real): real {
    if a < b then a else b
  }

  function ToolRisk(count: nat): real {
    if count == 0 then 0.0 else Min(0.2, 0.05 * count as real)
  }

  /** The risk of the query and of the tools as such. */
  function BaseRisk(query: Query, count: nat, cs: seq<Capability>): real {
    0.15 + (if query.explores then 0.25 else 0.0) + (if query.runsCode then 0.25 else 0.0)
    + ToolRisk(count) + (if SomeNetwork(cs) then 0.1 else 0.0) + (if SomeCode(cs) then 0.15 else 0.0)
  }

  function LevelOf(risk: real, high: real): Level {
    if risk >= high then High else if risk >= 0.35 then Medium else Low
  }

  function DynamicRisk(capabilities: seq<Capability>, profile: Profile, policy: Policy, query: Query, tools: seq<string>): real {
    var requested := NormalizeTools(tools);
    var risk := BaseRisk(query, |requested|, Resolved(capabilities, requested));
    if Authorized(capabilities, profile, tools) then risk else Max(risk, policy.high)
  }

  /** What is granted: nothing requested means the tools of the profile. */
  function Granted(capabilities: seq<Capability>, profile: Profile, allowUnknown: bool, tools: seq<string>): seq<string> {
    var requested := NormalizeTools(tools);
    var allowed := AllowedIds(capabilities, profile);
    if requested == [] then allowed else PermittedIds(allowUnknown, allowed, IdsOf(Resolved(capabilities, requested)))
  }

  predicate DynamicAllowed(capabilities: seq<Capability>, profile: Profile, policy: Policy, query: Query, tools: seq<string>) {
    && (policy.allowUnknown || Authorized(capabilities, profile, tools))
    && !(policy.mode.Core? && DynamicRisk(capabilities, profile, policy, query, tools) >= policy.high)
  }

  method AssessRisk(query: Query, count: nat, cs: seq<Capability>) returns (risk: real)
    ensures risk == BaseRisk(query, count, cs)
  {
    risk := 0.15;
    if query.explores { risk := risk + 0.25; }
    if query.runsCode { risk := risk + 0.25; }
    if count != 0 { risk := risk + Min(0.2, 0.05 * count as real); }
    if SomeNetwork(cs) { risk := risk + 0.1; }
    if SomeCode(cs) { risk := risk + 0.15; }
  }

  /** The dynamic evaluation as it runs: risk and permission are adjusted step by step. */
  method EvaluateDynamicRequest(registry: CapabilityRegistry, profile: Profile, policy: Policy, query: Query, tools: seq<string>)
      returns (decision: Decision)
    requires registry.Valid()
    ensures var all, risk := registry.capabilities, DynamicRisk(registry.capabilities, profile, policy, query, tools);
            && decision.allowed == DynamicAllowed(all, profile, policy, query, tools)
            && decision.score == Min(risk, 1.0)
            && decision.level == LevelOf(risk, policy.high)
            && decision.granted == Granted(all, profile, policy.allowUnknown, tools)
  {
    hide CleanTexts, Resolved, Unknown, Capabilities.DistinctIds, Authorized, IdsOf, BaseRisk, LevelOf;
    ghost var all := registry.capabilities;
    var permitted, _ := registry.ResolveNames(profile.allowedTools);
    var allowedTools := IdsOf(permitted);
    var requested := NormalizeTools(tools);
    var cs, unknown := registry.ResolveNames(requested);
    var ids := IdsOf(cs);
    var risk := AssessRisk(query, |requested|, cs);
    var deniedKnown := OutsideIds(allowedTools, ids);
    var deniedByProfile := BeyondNetwork(profile.network, cs);
    DeniedMeans(all, profile, tools);
    if unknown != [] { risk := Max(risk, policy.high); }
    if deniedKnown != [] || deniedByProfile != [] { risk := Max(risk, policy.high); }
    var allowed := policy.allowUnknown || (unknown == [] && deniedKnown == [] && deniedByProfile == []);
    if policy.mode.Core? && risk >= policy.high { allowed := false; }
    if requested == [] { ids := allowedTools; }
    PermitsItself(policy.allowUnknown, allowedTools, allowedTools);
    decision := Decision(allowed, LevelOf(risk, policy.high), Min(risk, 1.0),
                         PermittedIds(policy.allowUnknown, allowedTools, ids));
  }

  /** The evaluation of a plain tool request. */
  method EvaluateToolRequest(registry: CapabilityRegistry, profile: Profile, tools: seq<string>)
      returns (allowed: bool, granted: seq<string>)
    requires registry.Valid()
    ensures allowed == Authorized(registry.capabilities, profile, tools)
    ensures granted == PermittedIds(false, AllowedIds(registry.capabilities, profile),
                                    IdsOf(Resolved(registry.capabilities, NormalizeTools(tools))))
  {
    hide CleanTexts, Resolved, Unknown, Capabilities.DistinctIds, Authorized, IdsOf;
    var permitted, _ := registry.ResolveNames(profile.allowedTools);
    var allowedTools := IdsOf(permitted);
    var cs, unknown := registry.ResolveNames(NormalizeTools(tools));
    var deniedKnown := OutsideIds(allowedTools, IdsOf(cs));
    var deniedByProfile := BeyondNetwork(profile.network, cs);
    DeniedMeans(registry.capabilities, profile, tools);
    allowed := deniedKnown == [] && deniedByProfile == [] && unknown == [];
    granted := PermittedIds(false, allowedTools, IdsOf(cs));
  }

  // ----- Lists of denials -----

  lemma {:induction false} NoneOutside(allowed: seq<string>, ids: seq<string>)
    ensures OutsideIds(allowed, ids) == [] <==> forall id :: id in ids ==> id in allowed
  {
    if ids != [] {
      NoneOutside(allowed, ids[1..]);
      assert ids == [ids[0]] + ids[1..];
    }
  }

  lemma {:induction false} NoneBeyond(profile: Access, cs: seq<Capability>)
    ensures BeyondNetwork(profile, cs) == [] <==> forall c :: c in cs ==> NetworkAllowed(profile, c.network)
  {
    if cs != [] {
      NoneBeyond(profile, cs[1..]);
      assert cs == [cs[0]] + cs[1..];
    }
  }

  lemma {:induction false} PermitsItself(allowUnknown: bool, allowed: seq<string>, ids: seq<string>)
    requires allowUnknown || forall id :: id in ids ==> id in allowed
    ensures PermittedIds(allowUnknown, allowed, ids) == ids
  {
    if ids != [] {
      assert ids[0] in ids && forall id :: id in ids[1..] ==> id in ids;
      PermitsItself(allowUnknown, allowed, ids[1..]);
    }
  }

  lemma {:induction false} PermitsOnlyAllowed(allowed: seq<string>, ids: seq<string>)
    ensures forall id :: id in PermittedIds(false, allowed, ids) <==> id in ids && id in allowed
  {
    if ids != [] {
      PermitsOnlyAllowed(allowed, ids[1..]);
      assert ids == [ids[0]] + ids[1..];
    }
  }

  lemma DeniedMeans(capabilities: seq<Capability>, profile: Profile, tools: seq<string>)
    ensures var requested, allowed := NormalizeTools(tools), AllowedIds(capabilities, profile);
            var cs := Resolved(capabilities, requested);
            Authorized(capabilities, profile, tools) <==>
              && Unknown(capabilities, requested) == []
              && OutsideIds(allowed, IdsOf(cs)) == []
              && BeyondNetwork(profile.network, cs) == []
  {
    hide CleanTexts, Unknown, Resolved;
    var cs := Resolved(capabilities, NormalizeTools(tools));
    NoneOutside(AllowedIds(capabilities, profile), IdsOf(cs));
    NoneBeyond(profile.network, cs);
    forall c | c in cs ensures c.id in IdsOf(cs) { InIds(cs, c.id); }
    forall id | id in IdsOf(cs) ensures exists c :: c in cs && c.id == id { InIds(cs, id); }
  }
}

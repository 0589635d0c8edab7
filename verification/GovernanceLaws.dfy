/** What the governor's decisions promise: asking for less never loses permission, and grants stay
    within the profile. */
module GovernanceLaws {
  import opened Capabilities
  import opened Governance
  import opened ListLaws
  import opened Values

  /** `less` names nothing that `more` does not, and is no longer. */
  ghost predicate Narrower(less: seq<string>, more: seq<string>) {
    |less| <= |more| && forall tool :: tool in less ==> tool in more
  }

  predicate Sublist(less: seq<string>, more: seq<string>) {
    if less == [] then true
    else if more == [] then false
    else if less[0] == more[0] && Sublist(less[1..], more[1..]) then true
    else Sublist(less, more[1..])
  }

  lemma {:induction false} SublistIsNarrower(less: seq<string>, more: seq<string>)
    requires Sublist(less, more)
    ensures Narrower(less, more)
    ensures Narrower(CleanTexts(less), CleanTexts(more))
  {
    hide Trim;
    if less != [] {
      assert more == [more[0]] + more[1..] && less == [less[0]] + less[1..];
      if less[0] == more[0] && Sublist(less[1..], more[1..]) {
        SublistIsNarrower(less[1..], more[1..]);
      } else {
        SublistIsNarrower(less, more[1..]);
      }
    }
  }

  lemma NarrowerResolves(capabilities: seq<Capability>, less: seq<string>, more: seq<string>)
    requires Narrower(less, more)
    ensures forall c :: c in Resolved(capabilities, less) ==> c in Resolved(capabilities, more)
    ensures forall u :: u in Unknown(capabilities, less) ==> u in Unknown(capabilities, more)
  {
    hide Resolved, Unknown, Lookup, Trim;
    forall c | c in Resolved(capabilities, less) ensures c in Resolved(capabilities, more) {
      ResolvedMeans(capabilities, less, c);
      ResolvedMeans(capabilities, more, c);
    }
    forall u | u in Unknown(capabilities, less) ensures u in Unknown(capabilities, more) {
      UnknownMeans(capabilities, less, u);
      UnknownMeans(capabilities, more, u);
    }
  }

  lemma AuthorizationIsAntitone(capabilities: seq<Capability>, profile: Profile, less: seq<string>, more: seq<string>)
    requires Sublist(less, more) && Authorized(capabilities, profile, more)
    ensures Authorized(capabilities, profile, less)
  {
    hide Resolved, Unknown, CleanTexts;
    SublistIsNarrower(less, more);
    NarrowerResolves(capabilities, NormalizeTools(less), NormalizeTools(more));
    var unknown := Unknown(capabilities, NormalizeTools(less));
    assert unknown != [] ==> unknown[0] in Unknown(capabilities, NormalizeTools(more));
  }

  lemma RiskIsMonotone(query: Query, less: nat, fewer: seq<Capability>, more: nat, cs: seq<Capability>)
    requires less <= more && forall c :: c in fewer ==> c in cs
    ensures BaseRisk(query, less, fewer) <= BaseRisk(query, more, cs)
  {
    assert SomeNetwork(fewer) ==> SomeNetwork(cs);
    assert SomeCode(fewer) ==> SomeCode(cs);
    assert 0.05 * less as real <= 0.05 * more as real;
  }

  /** If a list of tools is allowed, so is every sublist of it, in standard and in core mode. */
  lemma DynamicIsAntitone(capabilities: seq<Capability>, profile: Profile, policy: Policy, query: Query,
                          less: seq<string>, more: seq<string>)
    requires Sublist(less, more) && DynamicAllowed(capabilities, profile, policy, query, more)
    ensures DynamicAllowed(capabilities, profile, policy, query, less)
  {
    hide Authorized, BaseRisk, Resolved, CleanTexts;
    SublistIsNarrower(less, more);
    NarrowerResolves(capabilities, NormalizeTools(less), NormalizeTools(more));
    RiskIsMonotone(query, |NormalizeTools(less)|, Resolved(capabilities, NormalizeTools(less)),
                   |NormalizeTools(more)|, Resolved(capabilities, NormalizeTools(more)));
    if Authorized(capabilities, profile, more) { AuthorizationIsAntitone(capabilities, profile, less, more); }
  }

  /** With unknown tools off, everything granted is a tool of the profile. */
  lemma GrantsStayInProfile(capabilities: seq<Capability>, profile: Profile, tools: seq<string>, id: string)
    requires id in Granted(capabilities, profile, false, tools)
    ensures id in AllowedIds(capabilities, profile)
  {
    PermitsOnlyAllowed(AllowedIds(capabilities, profile), IdsOf(Resolved(capabilities, NormalizeTools(tools))));
  }

  /** An authorized, nonempty request loses none of the capabilities it resolves to. */
  lemma NothingIsLost(capabilities: seq<Capability>, profile: Profile, tools: seq<string>)
    requires NormalizeTools(tools) != [] && Authorized(capabilities, profile, tools)
    ensures Granted(capabilities, profile, false, tools) == NormalizeNames(capabilities, NormalizeTools(tools))
  {
    hide Resolved, CleanTexts, Unknown;
    var cs := Resolved(capabilities, NormalizeTools(tools));
    forall id | id in IdsOf(cs) ensures id in AllowedIds(capabilities, profile) { InIds(cs, id); }
    PermitsItself(false, AllowedIds(capabilities, profile), IdsOf(cs));
    assert IdsOf(cs) + [] == IdsOf(cs);
  }

  /** Core mode ignores the flag for unknown tools: whatever is allowed there is authorized, because
      anything else raises the risk to the threshold. */
  lemma CoreModeAuthorizes(capabilities: seq<Capability>, profile: Profile, policy: Policy, query: Query, tools: seq<string>)
    requires policy.mode.Core?
    ensures DynamicAllowed(capabilities, profile, policy, query, tools) <==>
            && Authorized(capabilities, profile, tools)
            && BaseRisk(query, |NormalizeTools(tools)|, Resolved(capabilities, NormalizeTools(tools))) < policy.high
  {
  }

  /** Standard mode allows what is authorized, whatever its risk, and nothing else unless the flag is set. */
  lemma StandardModeIff(capabilities: seq<Capability>, profile: Profile, policy: Policy, query: Query, tools: seq<string>)
    requires policy.mode.Standard?
    ensures DynamicAllowed(capabilities, profile, policy, query, tools) <==>
            || policy.allowUnknown
            || forall tool | Wants(tools, tool) ::
                 var c := Lookup(capabilities, tool);
                 c.Some? && Listed(capabilities, profile, c.value.id) && Reachable(profile, c.value)
  {
    hide Authorized, Lookup, Listed, Wants, BaseRisk, CleanTexts, Resolved;
    AuthorizedIff(capabilities, profile, tools);
  }

  /** In standard mode that flag lets everything through, known tools outside the profile included. */
  lemma StandardModeWithUnknownToolsAllowsAll(capabilities: seq<Capability>, profile: Profile, policy: Policy, query: Query, tools: seq<string>)
    requires policy.mode.Standard? && policy.allowUnknown
    ensures DynamicAllowed(capabilities, profile, policy, query, tools)
    ensures NormalizeTools(tools) != [] ==>
              Granted(capabilities, profile, true, tools) == IdsOf(Resolved(capabilities, NormalizeTools(tools)))
  {
    PermitsItself(true, AllowedIds(capabilities, profile), IdsOf(Resolved(capabilities, NormalizeTools(tools))));
  }

  // ----- What a request is authorized by -----

  /** A name of the profile refers to a capability with this id. */
  ghost predicate Listed(capabilities: seq<Capability>, profile: Profile, id: string) {
    exists name, c :: name in profile.allowedTools && Lookup(capabilities, name) == Some(c) && c.id == id
  }

  /** The capability needs no network, or both it and the profile have their network mediated by tools. */
  predicate Reachable(profile: Profile, c: Capability) {
    c.network == NoNetwork || (profile.network == ToolMediated && c.network == ToolMediated)
  }

  lemma AllowedMeans(capabilities: seq<Capability>, profile: Profile, id: string)
    ensures id in AllowedIds(capabilities, profile) <==> Listed(capabilities, profile, id)
  {
    hide Resolved, Lookup;
    var cs := Resolved(capabilities, profile.allowedTools);
    InIds(cs, id);
    forall c ensures c in cs <==> exists n :: n in profile.allowedTools && Lookup(capabilities, n) == Some(c) {
      ResolvedMeans(capabilities, profile.allowedTools, c);
    }
    if Listed(capabilities, profile, id) {
      var name, c :| name in profile.allowedTools && Lookup(capabilities, name) == Some(c) && c.id == id;
      assert c in cs;
    }
  }

  /** A tool that the request names in so many words, or in blanks. */
  ghost predicate Wants(tools: seq<string>, tool: string) {
    tool in tools && Trim(tool) != ""
  }

  /** A request is authorized if and only if each tool it wants refers to a capability that the profile
      lists and can reach. */
  lemma AuthorizedIff(capabilities: seq<Capability>, profile: Profile, tools: seq<string>)
    ensures Authorized(capabilities, profile, tools) <==>
            forall tool | Wants(tools, tool) ::
              var c := Lookup(capabilities, tool);
              c.Some? && Listed(capabilities, profile, c.value.id) && Reachable(profile, c.value)
  {
    hide Lookup, Trim, CleanTexts, AllowedIds, Resolved, Unknown, Listed;
    var requested := NormalizeTools(tools);
    forall id ensures id in AllowedIds(capabilities, profile) <==> Listed(capabilities, profile, id) {
      AllowedMeans(capabilities, profile, id);
    }
    forall x ensures x in requested <==> x != "" && exists t :: t in tools && Trim(t) == x { CleanTextsMean(tools, x); }
    forall c ensures c in Resolved(capabilities, requested) <==> exists n :: n in requested && Lookup(capabilities, n) == Some(c) {
      ResolvedMeans(capabilities, requested, c);
    }
    forall t ensures Lookup(capabilities, Trim(t)) == Lookup(capabilities, t) { LookupIgnoresBlanks(capabilities, t); }
    if Authorized(capabilities, profile, tools) {
      forall tool | Wants(tools, tool)
        ensures Lookup(capabilities, tool).Some?
        ensures Listed(capabilities, profile, Lookup(capabilities, tool).value.id) && Reachable(profile, Lookup(capabilities, tool).value)
      {
        assert Trim(tool) in requested;
        TrimTwice(tool);
        if Lookup(capabilities, tool).None? { UnknownWants(capabilities, requested, Trim(tool)); }
        assert Lookup(capabilities, tool).value in Resolved(capabilities, requested);
      }
    } else if forall tool | Wants(tools, tool) ::
        Lookup(capabilities, tool).Some? && Listed(capabilities, profile, Lookup(capabilities, tool).value.id) && Reachable(profile, Lookup(capabilities, tool).value)
    {
      if Unknown(capabilities, requested) != [] { UnknownIsWanted(capabilities, tools); }
      assert false;
    }
  }

  lemma UnknownWants(capabilities: seq<Capability>, requested: seq<string>, name: string)
    requires name in requested && Lookup(capabilities, name).None? && name != "" && Trim(name) == name
    ensures Unknown(capabilities, requested) != []
  {
    UnknownMeans(capabilities, requested, name);
  }

  lemma UnknownIsWanted(capabilities: seq<Capability>, tools: seq<string>)
    requires Unknown(capabilities, NormalizeTools(tools)) != []
    ensures exists tool :: Wants(tools, tool) && Lookup(capabilities, tool).None?
  {
    hide Lookup, Trim, CleanTexts, Unknown;
    var requested := NormalizeTools(tools);
    var u := Unknown(capabilities, requested)[0];
    UnknownMeans(capabilities, requested, u);
    var n :| n in requested && Lookup(capabilities, n).None? && Trim(n) == u != "";
    CleanTextsMean(tools, n);
    var t :| t in tools && Trim(t) == n;
    LookupIgnoresBlanks(capabilities, t);
    assert Wants(tools, t);
  }

  /** What a request that names tools is granted: the capabilities that its tools refer to, those of the
      profile only unless unknown tools are let through. */
  lemma GrantedIff(capabilities: seq<Capability>, profile: Profile, allowUnknown: bool, tools: seq<string>, id: string)
    requires exists tool :: Wants(tools, tool)
    ensures id in Granted(capabilities, profile, allowUnknown, tools) <==>
            && (allowUnknown || Listed(capabilities, profile, id))
            && exists tool, c :: Wants(tools, tool) && Lookup(capabilities, tool) == Some(c) && c.id == id
  {
    hide Lookup, Trim, CleanTexts, AllowedIds, Resolved, Listed, PermittedIds, IdsOf;
    var requested := NormalizeTools(tools);
    var cs := Resolved(capabilities, requested);
    var tool :| Wants(tools, tool);
    CleanTextsMean(tools, Trim(tool));
    AllowedMeans(capabilities, profile, id);
    PermittedMeans(allowUnknown, AllowedIds(capabilities, profile), IdsOf(cs), id);
    InIds(cs, id);
    forall c ensures c in cs <==> exists t :: Wants(tools, t) && Lookup(capabilities, t) == Some(c) {
      ResolvedByWanted(capabilities, tools, c);
    }
  }

  lemma {:induction false} PermittedMeans(allowUnknown: bool, allowed: seq<string>, ids: seq<string>, id: string)
    ensures id in PermittedIds(allowUnknown, allowed, ids) <==> id in ids && (allowUnknown || id in allowed)
  {
    if ids != [] {
      PermittedMeans(allowUnknown, allowed, ids[1..], id);
      assert ids == [ids[0]] + ids[1..];
    }
  }

  lemma ResolvedByWanted(capabilities: seq<Capability>, tools: seq<string>, c: Capability)
    ensures c in Resolved(capabilities, NormalizeTools(tools)) <==> exists t :: Wants(tools, t) && Lookup(capabilities, t) == Some(c)
  {
    hide Lookup, Trim, CleanTexts, Resolved;
    var requested := NormalizeTools(tools);
    ResolvedMeans(capabilities, requested, c);
    if n :| n in requested && Lookup(capabilities, n) == Some(c) {
      CleanTextsMean(tools, n);
      var t :| t in tools && Trim(t) == n;
      LookupIgnoresBlanks(capabilities, t);
      assert Wants(tools, t);
    }
    if t :| Wants(tools, t) && Lookup(capabilities, t) == Some(c) {
      CleanTextsMean(tools, Trim(t));
      LookupIgnoresBlanks(capabilities, t);
      assert Trim(t) in requested;
    }
  }

  // ----- Risk -----

  /** The keywords of a query weigh the same, and each more than any tools can be without leaving the low
      level; what tools add depends on whether one reaches the network or executes code. */
  lemma RiskIsLowIff(query: Query, count: nat, cs: seq<Capability>, high: real)
    requires high >= 0.35
    ensures var network, code := exists c :: c in cs && c.network != NoNetwork, exists c :: c in cs && c.executesCode;
            LevelOf(BaseRisk(query, count, cs), high) == Low <==>
              && !query.explores && !query.runsCode
              && if network && code then false else if code then count == 0 else if network then count <= 1 else count <= 3
  {
    var network, code := exists c :: c in cs && c.network != NoNetwork, exists c :: c in cs && c.executesCode;
    assert network <==> SomeNetwork(cs);
    assert code <==> SomeCode(cs);
    ToolsWeigh(count);
  }

  lemma ToolsWeigh(count: nat)
    ensures ToolRisk(count) == if count == 0 then 0.0 else if count == 1 then 0.05 else if count == 2 then 0.1 else if count == 3 then 0.15 else 0.2
  {
    if count >= 4 { assert 0.05 * count as real >= 0.05 * 4.0; }
  }

  /** The weights: what each fact about a request adds to its risk, whatever else holds of it. */
  lemma RiskAdds(query: Query, count: nat, cs: seq<Capability>, c: Capability)
    ensures BaseRisk(Query(false, false), 0, []) == 0.15
    ensures BaseRisk(query.(explores := true), count, cs) - BaseRisk(query.(explores := false), count, cs) == 0.25
    ensures BaseRisk(query.(runsCode := true), count, cs) - BaseRisk(query.(runsCode := false), count, cs) == 0.25
    ensures BaseRisk(query, count + 1, cs) - BaseRisk(query, count, cs) == if count < 4 then 0.05 else 0.0
    ensures BaseRisk(query, count, cs + [c]) - BaseRisk(query, count, cs) ==
              (if c.network != NoNetwork && (forall d :: d in cs ==> d.network == NoNetwork) then 0.1 else 0.0)
              + (if c.executesCode && (forall d :: d in cs ==> !d.executesCode) then 0.15 else 0.0)
  {
    ToolsWeigh(count);
    ToolsWeigh(count + 1);
    assert SomeNetwork(cs + [c]) <==> SomeNetwork(cs) || c.network != NoNetwork by { assert c in cs + [c]; }
    assert SomeCode(cs + [c]) <==> SomeCode(cs) || c.executesCode by { assert c in cs + [c]; }
  }

  /** A request that is not authorized is always of high risk. */
  lemma UnauthorizedIsHigh(capabilities: seq<Capability>, profile: Profile, policy: Policy, query: Query, tools: seq<string>)
    ensures var risk := DynamicRisk(capabilities, profile, policy, query, tools);
            LevelOf(risk, policy.high) == High <==>
              !Authorized(capabilities, profile, tools)
              || BaseRisk(query, |NormalizeTools(tools)|, Resolved(capabilities, NormalizeTools(tools))) >= policy.high
  {
    hide Authorized, BaseRisk, CleanTexts, Resolved;
  }

  // ----- The empty request -----

  lemma IdsAreClean(capabilities: seq<Capability>, cs: seq<Capability>)
    requires forall c :: c in cs ==> c in capabilities && c.id != "" && Trim(c.id) == c.id
    ensures NormalizeTools(IdsOf(cs)) == IdsOf(cs)
  {
    hide Trim;
    forall id | id in IdsOf(cs) ensures id != "" && Trim(id) == id { InIds(cs, id); }
    CleanTextsOfClean(IdsOf(cs));
  }

  /** A blank request is answered with the tools of the profile, without looking at them: it is granted
      what naming them would be granted, but naming them is refused exactly if one needs network access
      that the profile does not have. */
  lemma BlankRequestIsUnexamined(capabilities: seq<Capability>, profile: Profile, tools: seq<string>)
    requires SelfNaming(capabilities) && NormalizeTools(tools) == []
    requires forall c :: c in capabilities ==> c.id != "" && Trim(c.id) == c.id
    ensures var named := AllowedIds(capabilities, profile);
            && Authorized(capabilities, profile, tools)
            && Granted(capabilities, profile, false, tools) == named == Granted(capabilities, profile, false, named)
            && (Authorized(capabilities, profile, named) <==>
                forall c :: c in Resolved(capabilities, profile.allowedTools) ==> NetworkAllowed(profile.network, c.network))
  {
    hide Lookup, Trim, CleanTexts, Unknown, Found, Fresh;
    var cs := Resolved(capabilities, profile.allowedTools);
    forall c | c in cs ensures c in capabilities {
      ResolvedMeans(capabilities, profile.allowedTools, c);
      var n :| n in profile.allowedTools && Lookup(capabilities, n) == Some(c);
      LookupIsRegistered(capabilities, n);
    }
    NothingToResolve(capabilities);
    IdsAreClean(capabilities, cs);
    FoundOfIds(capabilities, cs);
    DedupTwice(Found(capabilities, profile.allowedTools));
    assert Resolved(capabilities, IdsOf(cs)) == cs;
    PermitsItself(false, IdsOf(cs), IdsOf(cs));
    forall c | c in cs ensures c.id in IdsOf(cs) { InIds(cs, c.id); }
  }
}

/** The gates read off the stored texts, one rule, quota or budget at a time: what each says, and that
    it blocks exactly then. Nothing here mentions the predicates the gates are defined with. */
module GovernanceCases {
  import opened Strings
  import opened Usage
  import opened UsageCases
  import opened Governance
  import opened Wrappers

  // ---------------------------------------------------------------- policies

  function OnlyPolicy(p: Policy): World {
    World([p], [], [], [], [], Clock(0, 0, 0))
  }

  /** A selector list with one entry, or none. */
  function List(pattern: Option<string>): seq<string> {
    if pattern.Some? then [pattern.value] else []
  }

  predicate Names(pattern: Option<string>, candidate: string) {
    pattern.Some? ==> EqualFold(TrimSpace(pattern.value), TrimSpace(candidate))
  }

  predicate NotBlank(pattern: Option<string>) {
    pattern.Some? ==> !Blank(pattern.value)
  }

  lemma SelectsOne(pattern: Option<string>, c: string, d: string)
    requires NotBlank(pattern)
    ensures Selects(List(pattern), [c]) <==> Names(pattern, c)
    ensures Selects(List(pattern), [c, d]) <==> Names(pattern, c) || Names(pattern, d)
    ensures AnyNonBlank(List(pattern)) <==> pattern.Some?
  {
    hide TrimSpace, ToLower;
    if pattern.Some? {
      assert pattern.value in List(pattern);
      assert c in [c] && c in [c, d] && d in [c, d];
    }
  }

  /** An owner's mail domain: the text after the last '@', lowercase and trimmed. */
  lemma DomainOfOwner(name: string, d: string)
    requires '@' !in d
    ensures EmailDomain(name + "@" + d) == ToLower(TrimSpace(d))
    ensures EmailDomain(d) == ""
  {
    var owner := name + "@" + d;
    var at := LastIndex(owner, '@');
    assert owner[|name|] == '@';
    assert forall i :: |name| < i < |owner| ==> owner[i] == d[i - |name| - 1];
    assert at == |name|;
    assert owner[at+1..] == d;
  }

  lemma DomainNamed(pattern: Option<string>, d: string)
    requires NotBlank(pattern)
    ensures Names(pattern, ToLower(TrimSpace(d))) <==> Names(pattern, d)
    ensures pattern.Some? ==> !Names(pattern, "")
  {
    var pad, tail := TrimParts(d);
    LowerTrimmed(TrimSpace(d));
    LowerTwice(TrimSpace(d));
    if pattern.Some? { assert |ToLower(TrimSpace(pattern.value))| > 0; }
    assert TrimSpace("") == "";
  }

  /** One stored policy with at most one pattern in each selector list: it blocks a request exactly when
      it is active and readable, its effect is anything but "allow", it has some pattern, and each
      pattern names the request's provider or provider type, category, service, and owner's domain. */
  lemma PolicyBlocksExactly(policy: Policy, effect: string, provider: Option<string>, category: Option<string>,
                            service: Option<string>, domain: Option<string>, rc: Request, name: string, d: string)
    requires policy.rule == Some(Rule(effect, List(provider), List(category), List(service), List(domain)))
    requires NotBlank(provider) && NotBlank(category) && NotBlank(service) && NotBlank(domain)
    requires rc.owner == name + "@" + d && '@' !in d
    ensures Blocked(OnlyPolicy(policy), rc) <==>
      && policy.status == "active" && !Says(effect, "allow")
      && (provider.Some? || category.Some? || service.Some? || domain.Some?)
      && (Names(provider, rc.providerName) || Names(provider, rc.providerType))
      && Names(category, rc.category) && Names(service, rc.slug) && Names(domain, d)
  {
    hide TrimSpace, ToLower, EmailDomain, Selects, AnyNonBlank, Names;
    PolicyAlone(policy, rc);
    SelectsOne(provider, rc.providerName, rc.providerType);
    SelectsOne(category, rc.category, "");
    SelectsOne(service, rc.slug, "");
    SelectsOne(domain, ToLower(TrimSpace(d)), "");
    DomainOfOwner(name, d);
    DomainNamed(domain, d);
  }

  /** An owner without a mail domain is named by no domain pattern. */
  lemma NoDomainNoMatch(policy: Policy, rule: Rule, rc: Request)
    requires policy.rule == Some(rule) && rule.ownerDomains != [] && '@' !in rc.owner
    requires forall p :: p in rule.ownerDomains ==> !Blank(p)
    ensures !Blocked(OnlyPolicy(policy), rc)
  {
    hide ToLower, TrimSpace, Selective, IsDeny;
    PolicyAlone(policy, rc);
    DomainOfOwner("", rc.owner);
    PlainText("");
    assert !Selects(rule.ownerDomains, [""]);
  }

  lemma PolicyAlone(policy: Policy, rc: Request)
    ensures Blocked(OnlyPolicy(policy), rc) <==> Denies(policy, rc)
    ensures policy.status != "active" || policy.rule == None ==> !Blocked(OnlyPolicy(policy), rc)
  {
    hide RuleMatches, Selective, IsDeny;
    assert OnlyPolicy(policy).policies[0] == policy;
  }

  /** The effects a rule can be stored with: "deny", nothing, or "allow" in any spelling. */
  lemma EffectsExactly(effect: string, provider: string, rc: Request)
    requires !Blank(provider) && rc.providerName == provider
    ensures var w := OnlyPolicy(Policy("p", "active", Some(Rule(effect, [provider], [], [], []))));
      && (Blocked(w, rc) <==> !Says(effect, "allow"))
      && (effect == "deny" || effect == "" ==> Blocked(w, rc))
      && (effect == "allow" || effect == " Allow " ==> !Blocked(w, rc))
  {
    hide TrimSpace, ToLower, EmailDomain, Selects, AnyNonBlank;
    var policy := Policy("p", "active", Some(Rule(effect, [provider], [], [], [])));
    PolicyAlone(policy, rc);
    SelectsOne(Some(provider), rc.providerName, rc.providerType);
    SelectsOne(None, rc.category, "");
    SelectsOne(None, rc.slug, "");
    SelectsOne(None, EmailDomain(rc.owner), "");
    EffectWords(effect);
  }

  /** The documented example, which denies external contractors any access to a provider. */
  lemma ContractorPolicy(rc: Request, name: string, d: string)
    requires rc.owner == name + "@" + d && '@' !in d
    ensures var policy := Policy("contractors", "active", Some(Rule("deny", ["openai"], [], [], ["contractor.com"])));
            Blocked(OnlyPolicy(policy), rc) <==>
              (Says(rc.providerName, "openai") || Says(rc.providerType, "openai")) && Says(d, "contractor.com")
  {
    hide TrimSpace, ToLower, Blocked;
    var policy := Policy("contractors", "active", Some(Rule("deny", ["openai"], [], [], ["contractor.com"])));
    PlainText("openai");
    PlainText("contractor.com");
    EffectWords("deny");
    PolicyBlocksExactly(policy, "deny", Some("openai"), None, None, Some("contractor.com"), rc, name, d);
  }

  lemma EffectWords(effect: string)
    ensures effect == "deny" || effect == "" ==> !Says(effect, "allow")
    ensures effect == "allow" || effect == " Allow " ==> Says(effect, "allow")
  {
    hide TrimSpace;
    PlainText("allow");
    if effect == "deny" || effect == "" {
      PlainText(effect);
      assert |"deny"| == 4 && |"allow"| == 5;
    } else if effect == " Allow " {
      assert effect == " " + "Allow" + " ";
      TrimPadded(" ", "Allow", " ");
      FoldAllow();
    }
  }

  lemma FoldAllow()
    ensures ToLower("Allow") == "allow"
  {
    forall i | 0 <= i < 5 ensures ToLower("Allow")[i] == "allow"[i] {
      LowerAt("Allow", i);
    }
  }

  /** Longer lists select what some entry selects; a blank entry selects everything. */
  lemma ListSelectsAny(pattern: string, more: seq<string>, candidates: seq<string>)
    ensures Selects([pattern] + more, candidates) <==> Selects([pattern], candidates) || (more != [] && Selects(more, candidates))
    ensures AllSpace(pattern) ==> Selects([pattern], candidates)
    ensures AnyNonBlank([pattern] + more) <==> !AllSpace(pattern) || AnyNonBlank(more)
  {
    hide EqualFold, TrimSpace;
    BlankExactly(pattern);
    var all := [pattern] + more;
    assert all[0] == pattern && pattern in [pattern] && pattern in all;
    assert forall p :: p in more ==> p in all;
  }

  // ------------------------------------------------------------------ quotas

  function OnlyQuota(q: Quota, instances: seq<Instance>, usage: seq<Row>, clock: Clock): World {
    World([], [q], [], instances, usage, clock)
  }

  /** The instances a quota counts, one by one: active ones, of its service if it names one. */
  lemma ActiveExactly(q: Quota, instances: seq<Instance>, i: Instance)
    ensures Active(q, []) == 0
    ensures Active(q, instances + [i]) == Active(q, instances)
      + if i.status == "active" && (q.serviceId == None || q.serviceId == Some(i.serviceId)) then 1 else 0
  {
    assert (instances + [i])[..|instances|] == instances;
  }

  /** One quota alone blocks a request exactly when it counts seats or instances, applies to the service,
      is stored with enforcement "block", and is reached. */
  lemma SeatQuotaBlocksExactly(q: Quota, instances: seq<Instance>, usage: seq<Row>, clock: Clock, rc: Request)
    ensures Blocked(OnlyQuota(q, instances, usage, clock), rc) <==>
      && (Says(q.metric, "instances") || Says(q.metric, "seats"))
      && (q.serviceId == None || q.serviceId == Some(rc.serviceId))
      && q.enforcement == "block" && Active(q, instances) as real >= q.limit
  {
    hide Says, Active, TrimSpace, ToLower;
    SaysWord(q.metric, "instances");
    SaysWord(q.metric, "seats");
    assert OnlyQuota(q, instances, usage, clock).quotas[0] == q;
  }

  /** At the gateway it blocks exactly when it counts tokens or cost, its enforcement is "block" up to
      case, and its usage has reached the limit. */
  lemma ThroughputQuotaBlocksExactly(q: Quota, instances: seq<Instance>, usage: seq<Row>, clock: Clock, provider: string)
    ensures GatewayBlocked(OnlyQuota(q, instances, usage, clock), provider) <==>
      && EqualFold(q.enforcement, "block")
      && ((Says(q.metric, "tokens") && QuotaUsage("tokens", q.period, usage, clock) >= q.limit)
          || ((Says(q.metric, "cost") || Says(q.metric, "cost_usd")) && Cost(usage, PeriodStart(clock, q.period), Everything) >= q.limit))
  {
    hide Says, TrimSpace, ToLower, PeriodStart, Cost, TokensUsed;
    SaysWord(q.metric, "tokens");
    SaysWord(q.metric, "cost");
    SaysWord(q.metric, "cost_usd");
    assert |"tokens"| == 6 && |"cost"| == 4 && |"cost_usd"| == 8;
    var w := OnlyQuota(q, instances, usage, clock);
    assert w.quotas[0] == q;
    assert GatewayBlocked(w, provider) <==> ThroughputSpent(q, w);
  }

  // ----------------------------------------------------------------- budgets

  function OnlyBudget(b: Budget, usage: seq<Row>, clock: Clock): World {
    World([], [], [b], [], usage, clock)
  }

  predicate SpentUp(b: Budget, usage: seq<Row>, clock: Clock) {
    100.0 * Cost(usage, PeriodStart(clock, b.period), OfBudget(b)) >= b.hard as real * b.limit
  }

  /** Which requests a budget covers, by its scope. */
  predicate Covers(b: Budget, rc: Request) {
    var ref := TrimSpace(b.scopeRef);
    || Says(b.scope, "") || Says(b.scope, "global")
    || (Says(b.scope, "provider") && (ref == "" || EqualFold(rc.providerName, ref)))
    || (Says(b.scope, "owner") && EqualFold(rc.owner, ref))
    || (Says(b.scope, "workspace") && (ref == "" || EqualFold(rc.workspace, ref)))
    || (Says(b.scope, "tenant") && if ref == "" then rc.tenant == None else rc.tenant == Some(ref))
  }

  lemma CoversExactly(b: Budget, rc: Request)
    ensures Applies(b, rc) <==> Covers(b, rc)
  {
    ScopeWords(b);
    hide TrimSpace, ToLower, Says, ScopeOf;
  }

  /** One budget with a positive limit alone blocks a request exactly when it covers it and its spend has
      reached the hard threshold. */
  lemma BudgetBlocksExactly(b: Budget, usage: seq<Row>, clock: Clock, rc: Request)
    requires b.limit > 0.0
    ensures Blocked(OnlyBudget(b, usage, clock), rc) <==> Covers(b, rc) && SpentUp(b, usage, clock)
  {
    hide Applies, Covers, BudgetStatus, Cost, PeriodStart;
    CoversExactly(b, rc);
    HardLimitReached(b, BudgetActual(b, usage, clock));
    assert OnlyBudget(b, usage, clock).budgets[0] == b;
  }

  /** At the gateway it does so exactly when it is global, or for all providers, or for this one by name. */
  lemma BudgetBlocksGatewayExactly(b: Budget, usage: seq<Row>, clock: Clock, provider: string)
    requires b.limit > 0.0
    ensures GatewayBlocked(OnlyBudget(b, usage, clock), provider) <==>
      && SpentUp(b, usage, clock)
      && (Says(b.scope, "") || Says(b.scope, "global")
          || (Says(b.scope, "provider") && (Blank(b.scopeRef) || EqualFold(provider, TrimSpace(b.scopeRef)))))
  {
    hide Applies, BudgetStatus, Cost, PeriodStart, TrimSpace, ToLower, Says;
    ScopeWords(b);
    CoversExactly(b, GatewayRequest(provider));
    HardLimitReached(b, BudgetActual(b, usage, clock));
    assert OnlyBudget(b, usage, clock).budgets[0] == b;
  }

  // ------------------------------------------------------ reasons and hints

  /** What is reported for one policy, quota or budget that blocks, and for one that only warns. */
  lemma ReasonsExactly(r: Reason, policy: Policy, q: Quota, b: Budget, w: World, rc: Request)
    requires b.limit > 0.0
    ensures PolicyReason(r, [policy], rc) <==> Blocked(OnlyPolicy(policy), rc) && r == PolicyDenies(policy.name)
    ensures QuotaReason(r, [q], true, w, rc) <==>
      && Blocked(OnlyQuota(q, w.instances, w.usage, w.clock), rc)
      && r == QuotaReached(Active(q, w.instances), q.limit, ToLower(TrimSpace(q.metric)))
    ensures QuotaReason(r, [q], false, w, rc) <==>
      && q.enforcement != "block" && Blocked(OnlyQuota(q.(enforcement := "block"), w.instances, w.usage, w.clock), rc)
      && r == QuotaReached(Active(q, w.instances), q.limit, ToLower(TrimSpace(q.metric)))
    ensures BudgetReason(r, [b], w, rc) <==>
      && Covers(b, rc) && SpentUp(b, w.usage, w.clock) && r == BudgetExhausted(Cost(w.usage, PeriodStart(w.clock, b.period), OfBudget(b)), b)
    ensures BudgetHint(r, [b], w, rc) <==>
      && Covers(b, rc) && !SpentUp(b, w.usage, w.clock)
      && 100.0 * Cost(w.usage, PeriodStart(w.clock, b.period), OfBudget(b)) >= b.soft as real * b.limit
      && r == BudgetWarning(Summarize(b, w.usage, w.clock).pct, b)
  {
    hide Denies, ToLower, TrimSpace, Applies, Covers, Cost, PeriodStart, BudgetStatus, UsagePct, SeatMetric;
    assert [policy][0] == policy && [q][0] == q && [b][0] == b;
    PolicyAlone(policy, rc);
    QuotaAlone(q, w.instances, w.usage, w.clock, rc);
    QuotaAlone(q.(enforcement := "block"), w.instances, w.usage, w.clock, rc);
    SameSeats(q, q.(enforcement := "block"), w.instances, rc);
    CoversExactly(b, rc);
    SummaryExactly(b, w.usage, w.clock);
    assert |"hard_limit"| == 10 && |"warning"| == 7 && |"ok"| == 2;
  }

  lemma QuotaAlone(q: Quota, instances: seq<Instance>, usage: seq<Row>, clock: Clock, rc: Request)
    ensures Blocked(OnlyQuota(q, instances, usage, clock), rc) <==> q.enforcement == "block" && SeatsTaken(q, instances, rc)
  {
    hide SeatsTaken;
    assert OnlyQuota(q, instances, usage, clock).quotas[0] == q;
  }

  lemma {:induction false} SameActive(q: Quota, v: Quota, instances: seq<Instance>)
    requires q.serviceId == v.serviceId
    ensures Active(q, instances) == Active(v, instances)
  {
    if instances != [] {
      SameActive(q, v, instances[..|instances|-1]);
    }
  }

  lemma SameSeats(q: Quota, v: Quota, instances: seq<Instance>, rc: Request)
    requires v == q.(enforcement := v.enforcement)
    ensures SeatsTaken(q, instances, rc) <==> SeatsTaken(v, instances, rc)
  {
    SameActive(q, v, instances);
  }

  /** Entries block independently: what blocks together is what blocks alone. */
  lemma BlockedByParts(w: World, v: World, rc: Request, provider: string)
    requires w.instances == v.instances && w.usage == v.usage && w.clock == v.clock
    ensures var both := World(w.policies + v.policies, w.quotas + v.quotas, w.budgets + v.budgets, w.instances, w.usage, w.clock);
      && (Blocked(both, rc) <==> Blocked(w, rc) || Blocked(v, rc))
      && (GatewayBlocked(both, provider) <==> GatewayBlocked(w, provider) || GatewayBlocked(v, provider))
  {
    hide Denies, SeatsTaken, Applies, BudgetStatus, BudgetActual, QuotaUsage, GatewayScope, GatewayRequest;
    var both := World(w.policies + v.policies, w.quotas + v.quotas, w.budgets + v.budgets, w.instances, w.usage, w.clock);
    assert forall b :: (AtHardLimit(b, both) <==> AtHardLimit(b, w)) && (AtHardLimit(b, both) <==> AtHardLimit(b, v));
    assert forall q :: (ThroughputSpent(q, both) <==> ThroughputSpent(q, w)) && (ThroughputSpent(q, both) <==> ThroughputSpent(q, v));
  }
}

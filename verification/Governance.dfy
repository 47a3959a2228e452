/** The AI governance gates: deny policies, seat quotas and budget limits on a request, and the
    spend and throughput gate of the gateway. */
module Governance {
  import opened Sequences
  import opened Strings
  import opened Wrappers
  import opened Usage

  /** A policy rule as stored: every selector list that is not empty must match. */
  datatype Rule = Rule(
    effect: string, providers: seq<string>, categories: seq<string>, services: seq<string>, ownerDomains: seq<string>)

  /** `rule` is None when the stored JSON cannot be read. */
  datatype Policy = Policy(name: string, status: string, rule: Option<Rule>)

  datatype Quota = Quota(serviceId: Option<string>, metric: string, limit: real, period: string, enforcement: string)

  datatype Instance = Instance(serviceId: string, owner: string, workspace: string, tenant: Option<string>, status: string)

  datatype Request = Request(
    serviceId: string, slug: string, category: string, providerName: string, providerType: string,
    owner: string, workspace: string, tenant: Option<string>)

  // ---------------------------------------------------------------- policies

  predicate IsDeny(r: Rule) {
    !EqualFold(TrimSpace(r.effect), "allow")
  }

  predicate AnyNonBlank(s: seq<string>) {
    exists v :: v in s && !Blank(v)
  }

  predicate Selective(r: Rule) {
    AnyNonBlank(r.providers) || AnyNonBlank(r.categories) || AnyNonBlank(r.services) || AnyNonBlank(r.ownerDomains)
  }

  predicate Selects(patterns: seq<string>, candidates: seq<string>) {
    || patterns == []
    || exists p :: p in patterns && (Blank(p) || exists c :: c in candidates && EqualFold(TrimSpace(p), TrimSpace(c)))
  }

  function LastIndex(s: string, c: char): (i: int)
    ensures -1 <= i < |s| && (i >= 0 ==> s[i] == c) && forall j :: i < j < |s| ==> s[j] != c
  {
    if s == "" then -1 else if s[|s|-1] == c then |s| - 1 else LastIndex(s[..|s|-1], c)
  }

  function EmailDomain(owner: string): string {
    var at := LastIndex(owner, '@');
    if at < 0 || at == |owner| - 1 then "" else ToLower(TrimSpace(owner[at+1..]))
  }

  predicate RuleMatches(r: Rule, rc: Request) {
    && Selects(r.providers, [rc.providerName, rc.providerType])
    && Selects(r.categories, [rc.category])
    && Selects(r.services, [rc.slug])
    && Selects(r.ownerDomains, [EmailDomain(rc.owner)])
  }

  /** An active, readable, non-inert deny policy that selects the request. */
  predicate Denies(p: Policy, rc: Request) {
    && p.status == "active" && p.rule.Some?
    && IsDeny(p.rule.value) && Selective(p.rule.value) && RuleMatches(p.rule.value, rc)
  }

  method MatchAny(patterns: seq<string>, candidates: seq<string>) returns (found: bool)
    ensures found == Selects(patterns, candidates)
  {
    if |patterns| == 0 {
      return true;
    }
    for i := 0 to |patterns|
      invariant forall j :: 0 <= j < i ==> !Blank(patterns[j])
      invariant forall j, c :: 0 <= j < i && c in candidates ==> !EqualFold(TrimSpace(patterns[j]), TrimSpace(c))
    {
      var p := TrimSpace(patterns[i]);
      if p == "" {
        assert patterns[i] in patterns;
        return true;
      }
      for k := 0 to |candidates|
        invariant forall c :: c in candidates[..k] ==> !EqualFold(p, TrimSpace(c))
      {
        if EqualFold(p, TrimSpace(candidates[k])) {
          assert patterns[i] in patterns && candidates[k] in candidates;
          return true;
        }
      }
    }
    return false;
  }

  method HasSelector(r: Rule) returns (found: bool)
    ensures found == Selective(r)
  {
    var lists := [r.providers, r.categories, r.services, r.ownerDomains];
    assert Selective(r) <==> exists i :: 0 <= i < 4 && AnyNonBlank(lists[i]) by {
      assert lists[0] == r.providers && lists[1] == r.categories && lists[2] == r.services && lists[3] == r.ownerDomains;
    }
    for i := 0 to 4
      invariant forall j :: 0 <= j < i ==> !AnyNonBlank(lists[j])
    {
      for k := 0 to |lists[i]|
        invariant forall v :: v in lists[i][..k] ==> Blank(v)
      {
        if !Blank(lists[i][k]) {
          assert lists[i][k] in lists[i];
          return true;
        }
      }
      assert lists[i][..|lists[i]|] == lists[i];
    }
    return false;
  }

  method Matches(r: Rule, rc: Request) returns (m: bool)
    ensures m == RuleMatches(r, rc)
  {
    m := MatchAny(r.providers, [rc.providerName, rc.providerType]);
    if m {
      m := MatchAny(r.categories, [rc.category]);
    }
    if m {
      m := MatchAny(r.services, [rc.slug]);
    }
    if m {
      m := MatchAny(r.ownerDomains, [EmailDomain(rc.owner)]);
    }
  }

  // ------------------------------------------------------------------ quotas

  predicate SeatMetric(q: Quota) {
    var m := ToLower(TrimSpace(q.metric));
    m == "instances" || m == "seats"
  }

  predicate QuotaInScope(q: Quota, serviceId: string) {
    q.serviceId == None || q.serviceId == Some(serviceId)
  }

  predicate Seated(q: Quota, i: Instance) {
    i.status == "active" && QuotaInScope(q, i.serviceId)
  }

  /** The active instances a quota counts. */
  function Active(q: Quota, instances: seq<Instance>): nat {
    if instances == [] then 0
    else Active(q, instances[..|instances|-1]) + if Seated(q, instances[|instances|-1]) then 1 else 0
  }

  /** A seat quota that applies to the request and has been reached. */
  predicate SeatsTaken(q: Quota, instances: seq<Instance>, rc: Request) {
    SeatMetric(q) && QuotaInScope(q, rc.serviceId) && Active(q, instances) as real >= q.limit
  }

  // ----------------------------------------------------------------- budgets

  /** Does a budget's scope cover this request? */
  predicate Applies(b: Budget, rc: Request) {
    var ref := TrimSpace(b.scopeRef);
    var scope := ScopeOf(b);
    if scope == "" || scope == "global" then true
    else if scope == "provider" then ref == "" || EqualFold(rc.providerName, ref)
    else if scope == "owner" then EqualFold(rc.owner, ref)
    else if scope == "workspace" then ref == "" || EqualFold(rc.workspace, ref)
    else if scope == "tenant" then (if ref == "" then rc.tenant.None? else rc.tenant == Some(ref))
    else false
  }

  /** A usage record of the instance that a request creates, as the listing joins it. */
  predicate RowOfInstance(u: Row, rc: Request) {
    && u.providerName == rc.providerName && u.owner == Some(rc.owner)
    && u.workspace == Some(rc.workspace) && u.tenant == rc.tenant
  }

  /** A budget that gates a request counts what the resulting instance spends: always when its
      reference is not blank, and in general except when a workspace budget without a reference
      meets a record that names a workspace everywhere. */
  lemma GatingBudgetCounts(b: Budget, rc: Request, u: Row)
    requires RowOfInstance(u, rc)
    ensures (Applies(b, rc) ==> ScopeMatches(b, u)) <==>
            !(ScopeOf(b) == "workspace" && Blank(b.scopeRef) && rc.workspace != ""
              && RawField(u.raw, "workspace") != "" && RawField(u.raw, "workspace_id") != "")
    ensures !Blank(b.scopeRef) && Applies(b, rc) ==> ScopeMatches(b, u)
  {
    hide TrimSpace, RawField;
  }

  // -------------------------------------------------- the gate on a request

  datatype Reason =
    | PolicyDenies(name: string)
    | QuotaReached(active: nat, limit: real, metric: string)
    | BudgetExhausted(actual: real, budget: Budget)
    | BudgetWarning(pct: real, budget: Budget)

  /** Everything a governance decision is taken on. */
  datatype World = World(
    policies: seq<Policy>, quotas: seq<Quota>, budgets: seq<Budget>,
    instances: seq<Instance>, usage: seq<Row>, clock: Clock)

  predicate AtHardLimit(b: Budget, w: World) {
    BudgetStatus(b, BudgetActual(b, w.usage, w.clock)) == "hard_limit"
  }

  /** The rule: what blocks a request. */
  predicate Blocked(w: World, rc: Request) {
    || (exists p :: p in w.policies && Denies(p, rc))
    || (exists q :: q in w.quotas && q.enforcement == "block" && SeatsTaken(q, w.instances, rc))
    || (exists b :: b in w.budgets && Applies(b, rc) && AtHardLimit(b, w))
  }

  method CountActive(q: Quota, instances: seq<Instance>, rc: Request) returns (active: nat)
    requires QuotaInScope(q, rc.serviceId)
    ensures active == Active(q, instances)
  {
    var scoped := q.serviceId.Some?;
    active := 0;
    for i := 0 to |instances|
      invariant active == Active(q, instances[..i])
    {
      assert instances[..i+1][..i] == instances[..i];
      if instances[i].status != "active" {
        continue;
      }
      if scoped && instances[i].serviceId != rc.serviceId {
        continue;
      }
      active := active + 1;
    }
    assert instances[..|instances|] == instances;
  }

  function PolicyMsg(p: Policy): Reason {
    PolicyDenies(p.name)
  }

  function QuotaMsg(q: Quota, w: World): Reason {
    QuotaReached(Active(q, w.instances), q.limit, ToLower(TrimSpace(q.metric)))
  }

  function BudgetMsg(b: Budget, w: World): Reason {
    BudgetExhausted(BudgetActual(b, w.usage, w.clock), b)
  }

  function BudgetNote(b: Budget, w: World): Reason {
    BudgetWarning(UsagePct(b, BudgetActual(b, w.usage, w.clock)), b)
  }

  predicate InWarningBand(b: Budget, w: World) {
    BudgetStatus(b, BudgetActual(b, w.usage, w.clock)) == "warning"
  }

  predicate PolicyReason(r: Reason, ps: seq<Policy>, rc: Request) {
    exists p :: p in ps && Denies(p, rc) && r == PolicyMsg(p)
  }

  /** With `block`, the reasons of blocking quotas; without, those of the others. */
  predicate QuotaReason(r: Reason, qs: seq<Quota>, block: bool, w: World, rc: Request) {
    exists q :: q in qs && (q.enforcement == "block") == block && SeatsTaken(q, w.instances, rc) && r == QuotaMsg(q, w)
  }

  predicate BudgetReason(r: Reason, bs: seq<Budget>, w: World, rc: Request) {
    exists b :: b in bs && Applies(b, rc) && AtHardLimit(b, w) && r == BudgetMsg(b, w)
  }

  predicate BudgetHint(r: Reason, bs: seq<Budget>, w: World, rc: Request) {
    exists b :: b in bs && Applies(b, rc) && InWarningBand(b, w) && r == BudgetNote(b, w)
  }

  method CheckPolicies(w: World, rc: Request) returns (hard: seq<Reason>)
    ensures forall r :: r in hard <==> PolicyReason(r, w.policies, rc)
  {
    hide Selective, RuleMatches, IsDeny;
    hard := [];
    for i := 0 to |w.policies|
      invariant forall r :: r in hard <==> PolicyReason(r, w.policies[..i], rc)
    {
      var p := w.policies[i];
      assert w.policies[..i+1] == w.policies[..i] + [p];
      assert forall x :: x in w.policies[..i+1] <==> x in w.policies[..i] || x == p;
      if p.status != "active" || p.rule.None? {
        continue;
      }
      var rule := p.rule.value;
      var selective := HasSelector(rule);
      var matched := Matches(rule, rc);
      assert Denies(p, rc) <==> IsDeny(rule) && selective && matched;
      if IsDeny(rule) && selective && matched {
        hard := hard + [PolicyDenies(p.name)];
      }
    }
    assert w.policies[..|w.policies|] == w.policies;
  }

  method CheckQuotas(w: World, rc: Request) returns (hard: seq<Reason>, soft: seq<Reason>)
    ensures forall r :: r in hard <==> QuotaReason(r, w.quotas, true, w, rc)
    ensures forall r :: r in soft <==> QuotaReason(r, w.quotas, false, w, rc)
  {
    hide SeatMetric, Active, QuotaInScope, ToLower, TrimSpace;
    hard, soft := [], [];
    for i := 0 to |w.quotas|
      invariant forall r :: r in hard <==> QuotaReason(r, w.quotas[..i], true, w, rc)
      invariant forall r :: r in soft <==> QuotaReason(r, w.quotas[..i], false, w, rc)
    {
      var q := w.quotas[i];
      assert w.quotas[..i+1] == w.quotas[..i] + [q];
      assert forall x :: x in w.quotas[..i+1] <==> x in w.quotas[..i] || x == q;
      if !SeatMetric(q) || !QuotaInScope(q, rc.serviceId) {
        continue;
      }
      var active := CountActive(q, w.instances, rc);
      if active as real >= q.limit {
        var msg := QuotaReached(active, q.limit, ToLower(TrimSpace(q.metric)));
        if q.enforcement == "block" {
          hard := hard + [msg];
        } else {
          soft := soft + [msg];
        }
      }
    }
    assert w.quotas[..|w.quotas|] == w.quotas;
  }

  method CheckBudgets(w: World, rc: Request) returns (hard: seq<Reason>, soft: seq<Reason>)
    ensures forall r :: r in hard <==> BudgetReason(r, w.budgets, w, rc)
    ensures forall r :: r in soft <==> BudgetHint(r, w.budgets, w, rc)
  {
    hide Applies, BudgetStatus, BudgetActual, UsagePct;
    var summaries := ListBudgetSummaries(w.budgets, w.usage, w.clock);
    hard, soft := [], [];
    for i := 0 to |summaries|
      invariant forall r :: r in hard <==> BudgetReason(r, w.budgets[..i], w, rc)
      invariant forall r :: r in soft <==> BudgetHint(r, w.budgets[..i], w, rc)
    {
      var s := summaries[i];
      var b := w.budgets[i];
      assert s == Summarize(b, w.usage, w.clock);
      assert w.budgets[..i+1] == w.budgets[..i] + [b];
      assert forall x :: x in w.budgets[..i+1] <==> x in w.budgets[..i] || x == b;
      if !Applies(s.budget, rc) {
        continue;
      }
      if s.status == "hard_limit" {
        hard := hard + [BudgetExhausted(s.actual, s.budget)];
      } else if s.status == "warning" {
        soft := soft + [BudgetWarning(s.pct, s.budget)];
      }
    }
    assert w.budgets[..|w.budgets|] == w.budgets;
  }

  /** The whole gate: it blocks exactly when the rule says so, and reports every reason, and only
      true ones. */
  method EvaluateAIGovernance(w: World, rc: Request) returns (hard: seq<Reason>, soft: seq<Reason>)
    ensures hard != [] <==> Blocked(w, rc)
    ensures forall r :: r in hard <==>
              PolicyReason(r, w.policies, rc) || QuotaReason(r, w.quotas, true, w, rc) || BudgetReason(r, w.budgets, w, rc)
    ensures forall r :: r in soft <==> QuotaReason(r, w.quotas, false, w, rc) || BudgetHint(r, w.budgets, w, rc)
  {
    hide Denies, SeatsTaken, Applies, AtHardLimit, InWarningBand, QuotaMsg, BudgetMsg, BudgetNote;
    hard := CheckPolicies(w, rc);
    var h2, s2 := CheckQuotas(w, rc);
    var h3, s3 := CheckBudgets(w, rc);
    hard, soft := hard + h2 + h3, s2 + s3;
    if Blocked(w, rc) {
      if p :| p in w.policies && Denies(p, rc) {
        assert PolicyReason(PolicyMsg(p), w.policies, rc) && PolicyMsg(p) in hard;
      } else if q :| q in w.quotas && q.enforcement == "block" && SeatsTaken(q, w.instances, rc) {
        assert QuotaReason(QuotaMsg(q, w), w.quotas, true, w, rc) && QuotaMsg(q, w) in hard;
      } else {
        ghost var b :| b in w.budgets && Applies(b, rc) && AtHardLimit(b, w);
        assert BudgetReason(BudgetMsg(b, w), w.budgets, w, rc) && BudgetMsg(b, w) in hard;
      }
    }
    if hard != [] {
      assert hard[0] in hard;
    }
  }

  ghost predicate SameEntries<T>(a: seq<T>, b: seq<T>) {
    forall x :: x in a ==> x in b
  }

  lemma PermutedEntries<T>(a: seq<T>, b: seq<T>)
    requires multiset(a) == multiset(b)
    ensures SameEntries(a, b) && SameEntries(b, a)
  {
    assert forall x :: x in a <==> x in multiset(a);
    assert forall x :: x in b <==> x in multiset(b);
  }

  lemma {:induction false} ActivePermutes(q: Quota, a: seq<Instance>, b: seq<Instance>)
    requires multiset(a) == multiset(b)
    ensures Active(q, a) == Active(q, b)
    decreases |a|
  {
    if a == [] {
      assert |b| == |multiset(b)| == |multiset(a)| == 0;
    } else {
      var init := a[..|a|-1];
      var l, x, r := TakeOut(a, b);
      ActivePermutes(q, init, l + r);
      ActiveConcat(q, l, r);
      ActiveConcat(q, l + [x], r);
      ActiveConcat(q, l, [x]);
      ActiveConcat(q, init, [x]);
    }
  }

  lemma {:induction false} ActiveConcat(q: Quota, a: seq<Instance>, b: seq<Instance>)
    ensures Active(q, a + b) == Active(q, a) + Active(q, b)
  {
    if b == [] {
      assert a + b == a;
    } else {
      assert (a + b)[..|a + b|-1] == a + b[..|b|-1];
      ActiveConcat(q, a, b[..|b|-1]);
    }
  }

  /** The verdict does not depend on the order of policies, quotas, budgets, instances or usage. */
  lemma VerdictPermutes(w: World, v: World, rc: Request)
    requires multiset(w.policies) == multiset(v.policies) && multiset(w.quotas) == multiset(v.quotas)
    requires multiset(w.budgets) == multiset(v.budgets) && multiset(w.instances) == multiset(v.instances)
    requires multiset(w.usage) == multiset(v.usage) && w.clock == v.clock
    ensures Blocked(w, rc) <==> Blocked(v, rc)
  {
    VerdictPermutesOneWay(w, v, rc);
    VerdictPermutesOneWay(v, w, rc);
  }

  lemma VerdictPermutesOneWay(w: World, v: World, rc: Request)
    requires multiset(w.policies) == multiset(v.policies) && multiset(w.quotas) == multiset(v.quotas)
    requires multiset(w.budgets) == multiset(v.budgets) && multiset(w.instances) == multiset(v.instances)
    requires multiset(w.usage) == multiset(v.usage) && w.clock == v.clock
    ensures Blocked(w, rc) ==> Blocked(v, rc)
  {
    hide Denies, Applies, BudgetStatus, Cost;
    PermutedEntries(w.policies, v.policies);
    PermutedEntries(w.quotas, v.quotas);
    PermutedEntries(w.budgets, v.budgets);
    forall q ensures Active(q, w.instances) == Active(q, v.instances) {
      ActivePermutes(q, w.instances, v.instances);
    }
    forall b: Budget ensures BudgetActual(b, w.usage, w.clock) == BudgetActual(b, v.usage, v.clock) {
      CostPermutes(w.usage, v.usage, PeriodStart(w.clock, b.period), OfBudget(b));
    }
  }

  /** Adding a policy, a quota or a budget never lets a blocked request through. */
  lemma MoreRulesNeverUnblock(w: World, policies: seq<Policy>, quotas: seq<Quota>, budgets: seq<Budget>, rc: Request)
    ensures Blocked(w, rc) ==> Blocked(w.(policies := w.policies + policies, quotas := w.quotas + quotas, budgets := w.budgets + budgets), rc)
  {
    hide Denies, SeatsTaken, Applies, BudgetStatus, BudgetActual;
  }

  // ------------------------------------------------------ the gateway's gate

  predicate GatewayScope(b: Budget) {
    var s := ScopeOf(b);
    s == "" || s == "global" || s == "provider"
  }

  function GatewayRequest(providerName: string): Request {
    Request("", "", "", providerName, "", "", "", None)
  }

  predicate ThroughputSpent(q: Quota, w: World) {
    var m := ToLower(TrimSpace(q.metric));
    && (m == "tokens" || m == "cost_usd" || m == "cost") && EqualFold(q.enforcement, "block")
    && QuotaUsage(m, q.period, w.usage, w.clock) >= q.limit
  }

  predicate GatewayBlocked(w: World, providerName: string) {
    || (exists b :: b in w.budgets && GatewayScope(b) && Applies(b, GatewayRequest(providerName)) && AtHardLimit(b, w))
    || (exists q :: q in w.quotas && ThroughputSpent(q, w))
  }

  method EvaluateGatewayBudget(w: World, providerName: string) returns (blocked: bool)
    ensures blocked == GatewayBlocked(w, providerName)
  {
    hide GatewayScope, Applies, BudgetStatus, BudgetActual, QuotaUsage;
    var rc := GatewayRequest(providerName);
    var summaries := ListBudgetSummaries(w.budgets, w.usage, w.clock);
    for i := 0 to |summaries|
      invariant forall j :: 0 <= j < i ==>
        !(GatewayScope(w.budgets[j]) && Applies(w.budgets[j], rc) && AtHardLimit(w.budgets[j], w))
    {
      var s := summaries[i];
      if !GatewayScope(s.budget) {
        continue;
      }
      if s.status == "hard_limit" && Applies(s.budget, rc) {
        assert w.budgets[i] in w.budgets;
        return true;
      }
    }
    for i := 0 to |w.quotas|
      invariant forall j :: 0 <= j < i ==> !ThroughputSpent(w.quotas[j], w)
    {
      var q := w.quotas[i];
      var metric := ToLower(TrimSpace(q.metric));
      if metric != "tokens" && metric != "cost_usd" && metric != "cost" {
        continue;
      }
      if !EqualFold(q.enforcement, "block") {
        continue;
      }
      var used := AiQuotaUsage(metric, q.period, w.usage, w.clock);
      if used >= q.limit {
        assert w.quotas[i] in w.quotas;
        return true;
      }
    }
    return false;
  }

  /** A budget of zero is no kill-switch: with a positive threshold it blocks nothing on either
      path, and with one of zero or less it blocks whatever it applies to. */
  lemma ZeroBudgetExactly(w: World, b: Budget, rc: Request, provider: string)
    requires b.limit <= 0.0
    ensures var v := w.(budgets := w.budgets + [b]);
      && (Blocked(v, rc) <==> Blocked(w, rc) || (b.hard <= 0 && Applies(b, rc)))
      && (GatewayBlocked(v, provider) <==>
            GatewayBlocked(w, provider) || (b.hard <= 0 && GatewayScope(b) && Applies(b, GatewayRequest(provider))))
  {
    hide Applies, GatewayScope, BudgetStatus, BudgetActual, QuotaUsage, Denies, SeatsTaken, GatewayRequest;
    var v := w.(budgets := w.budgets + [b]);
    HardLimitReached(b, BudgetActual(b, w.usage, w.clock));
    assert forall x :: x in v.budgets <==> x in w.budgets || x == b;
    assert forall x :: AtHardLimit(x, v) <==> AtHardLimit(x, w);
    assert forall q :: ThroughputSpent(q, v) <==> ThroughputSpent(q, w);
  }
}

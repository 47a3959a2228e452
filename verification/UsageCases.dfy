/** The spend figures read off the stored texts: which sources supersede, what a scope, a period, a
    threshold and a metric mean. Nothing here mentions the predicates the sum is defined with. */
module UsageCases {
  import opened Sequences
  import opened Strings
  import opened Usage
  import opened Wrappers

  /** A stored text says a (lowercase) word, up to case and outer white space. */
  predicate Says(text: string, word: string) {
    EqualFold(TrimSpace(text), word)
  }

  predicate SourceSays(u: Row, word: string) {
    "source" in u.raw && Says(u.raw["source"], word)
  }

  predicate FromReport(u: Row) {
    SourceSays(u, "openai_costs_api") || SourceSays(u, "anthropic_cost_report") || SourceSays(u, "litellm_spend")
  }

  predicate FromGateway(u: Row) {
    SourceSays(u, "opord_gateway_lite")
  }

  lemma SaysWord(text: string, word: string)
    requires word != "" && forall i :: 0 <= i < |word| ==> !('A' <= word[i] <= 'Z')
    ensures Says(text, word) <==> ToLower(TrimSpace(text)) == word
  {
    hide TrimSpace;
    PlainText(word);
  }

  lemma SourceIs(u: Row, word: string)
    requires word != "" && forall i :: 0 <= i < |word| ==> !('A' <= word[i] <= 'Z')
    ensures Source(u) == word <==> SourceSays(u, word)
  {
    hide TrimSpace, ToLower, Says;
    if "source" in u.raw {
      SaysWord(u.raw["source"], word);
    }
    assert |ToLower("")| == 0;
  }

  lemma ReportIsAuthoritative(u: Row)
    ensures Authoritative(u) <==> FromReport(u)
  {
    hide Source, SourceSays;
    SourceIs(u, "openai_costs_api");
    SourceIs(u, "anthropic_cost_report");
    SourceIs(u, "litellm_spend");
  }

  lemma GatewayIsEstimate(u: Row)
    ensures Estimate(u) <==> FromGateway(u)
  {
    hide Source, SourceSays;
    SourceIs(u, "opord_gateway_lite");
  }

  /** In the window and counted by the scope. */
  predicate InWindow(u: Row, start: int, sc: Scope) {
    u.periodStart >= start && InScope(sc, u)
  }

  /** One row costs what it says, from the start of the window on. */
  lemma OneRowCost(u: Row, start: int, sc: Scope)
    ensures Cost([u], start, sc) == if InWindow(u, start, sc) then u.cost else 0.0
    ensures Cost([u], start, Everything) == if u.periodStart >= start then u.cost else 0.0
  {
    hide ScopeMatches, Source, ProviderKey;
    assert [] + [u] == [u];
    if Authoritative(u) { AuthoritativeIsNoEstimate(u); }
    forall x | x == sc || x == Everything
      ensures Cost([u], start, x) == if InWindow(u, start, x) then u.cost else 0.0
    {
      SupersededAppend([], u, start, x);
      TotalAppend([], u, start, x, Superseded([u], start, x));
      assert Superseded([], start, x) == {};
    }
  }

  lemma PairAmounts(u: Row, v: Row, start: int, sc: Scope)
    requires InWindow(u, start, sc) && InWindow(v, start, sc)
    ensures Cost([v, u], start, sc) == (if Estimate(v) && Authoritative(u) && ProviderKey(u) == ProviderKey(v) then 0.0 else v.cost)
                                     + (if Estimate(u) && Authoritative(v) && ProviderKey(u) == ProviderKey(v) then 0.0 else u.cost)
  {
    hide ScopeMatches, Source, ProviderKey;
    var table := [v, u];
    var sup := Superseded(table, start, sc);
    assert [] + [v] == [v] && [v] + [u] == table;
    SupersededAppend([], v, start, sc);
    SupersededAppend([v], u, start, sc);
    assert Superseded([], start, sc) == {};
    TotalAppend([], v, start, sc, sup);
    TotalAppend([v], u, start, sc, sup);
    if Authoritative(u) { AuthoritativeIsNoEstimate(u); }
    if Authoritative(v) { AuthoritativeIsNoEstimate(v); }
  }

  /** A gateway estimate and another row of the same provider, by name up to case: only the other one
      counts if it comes from one of the three spend reports, and both count if it comes from anywhere
      else. Of two providers, both always count. */
  lemma ReportSupersedesEstimate(u: Row, v: Row, start: int, sc: Scope)
    requires InWindow(u, start, sc) && InWindow(v, start, sc)
    ensures FromGateway(v) && EqualFold(u.providerName, v.providerName) && FromReport(u) ==>
              Cost([v, u], start, sc) == Cost([u, v], start, sc) == u.cost
    ensures FromGateway(v) && (!EqualFold(u.providerName, v.providerName) || !FromReport(u)) ==>
              Cost([v, u], start, sc) == Cost([u, v], start, sc) == u.cost + v.cost
  {
    hide ScopeMatches, Source, FromGateway, FromReport, Cost, InScope;
    PairAmounts(u, v, start, sc);
    ReportIsAuthoritative(u);
    ReportIsAuthoritative(v);
    GatewayIsEstimate(u);
    GatewayIsEstimate(v);
    if Authoritative(v) { AuthoritativeIsNoEstimate(v); }
    assert multiset([v, u]) == multiset([u, v]);
    CostPermutes([v, u], [u, v], start, sc);
  }

  /** With the sources as the importers and the gateway write them. */
  lemma WrittenSources(u: Row, v: Row, start: int, sc: Scope, report: string)
    requires report == "openai_costs_api" || report == "anthropic_cost_report" || report == "litellm_spend"
    requires InWindow(u, start, sc) && InWindow(v, start, sc) && u.providerName == v.providerName
    requires "source" in u.raw && u.raw["source"] == report && "source" in v.raw && v.raw["source"] == "opord_gateway_lite"
    ensures Cost([v, u], start, sc) == u.cost
  {
    hide ScopeMatches, Cost, InScope, TrimSpace, ToLower;
    PlainText(report);
    PlainText("opord_gateway_lite");
    assert FromReport(u) && FromGateway(v);
    ReportSupersedesEstimate(u, v, start, sc);
  }

  // ------------------------------------------------------------- scopes

  lemma ScopeSays(b: Budget, word: string)
    requires forall i :: 0 <= i < |word| ==> !('A' <= word[i] <= 'Z')
    ensures ScopeOf(b) == word <==> Says(b.scope, word)
  {
    hide TrimSpace;
    PlainText(word);
  }

  predicate KnownScope(b: Budget) {
    || Says(b.scope, "") || Says(b.scope, "global") || Says(b.scope, "provider")
    || Says(b.scope, "owner") || Says(b.scope, "workspace") || Says(b.scope, "tenant")
  }

  /** A raw field, or nothing, says the reference up to case and outer white space. */
  predicate RawSays(u: Row, key: string, ref: string) {
    if key in u.raw then EqualFold(TrimSpace(u.raw[key]), ref) else ref == ""
  }

  lemma RawFieldSays(u: Row, key: string, ref: string)
    ensures EqualFold(RawField(u.raw, key), ref) <==> RawSays(u, key, ref)
  {
    hide TrimSpace;
    assert |ToLower(ref)| == |ref|;
  }

  /** What each scope of a budget counts. */
  lemma ScopesExactly(b: Budget, u: Row)
    ensures var ref := TrimSpace(b.scopeRef);
      && (Says(b.scope, "") || Says(b.scope, "global") ==> ScopeMatches(b, u))
      && (Says(b.scope, "provider") ==>
            (ScopeMatches(b, u) <==> ref == "" || EqualFold(u.providerName, ref) || u.providerId == ref))
      && (Says(b.scope, "owner") ==>
            (ScopeMatches(b, u) <==> (u.owner.Some? && EqualFold(u.owner.value, ref)) || RawSays(u, "owner", ref)))
      && (Says(b.scope, "workspace") ==>
            (ScopeMatches(b, u) <==> (u.workspace.Some? && EqualFold(u.workspace.value, ref))
                                     || RawSays(u, "workspace", ref) || RawSays(u, "workspace_id", ref)))
      && (Says(b.scope, "tenant") ==>
            (ScopeMatches(b, u) <==> if ref == "" then u.tenant == None else u.tenant == Some(ref)))
      && (!KnownScope(b) ==> !ScopeMatches(b, u))
  {
    ScopeWords(b);
    hide TrimSpace, ToLower, Says, ScopeOf, RawSays, RawField;
    var ref := TrimSpace(b.scopeRef);
    RawFieldSays(u, "owner", ref);
    RawFieldSays(u, "workspace", ref);
    RawFieldSays(u, "workspace_id", ref);
  }

  lemma ScopeWords(b: Budget)
    ensures ScopeOf(b) == "" <==> Says(b.scope, "")
    ensures ScopeOf(b) == "global" <==> Says(b.scope, "global")
    ensures ScopeOf(b) == "provider" <==> Says(b.scope, "provider")
    ensures ScopeOf(b) == "owner" <==> Says(b.scope, "owner")
    ensures ScopeOf(b) == "workspace" <==> Says(b.scope, "workspace")
    ensures ScopeOf(b) == "tenant" <==> Says(b.scope, "tenant")
  {
    hide Says, ScopeOf;
    ScopeSays(b, "");
    ScopeSays(b, "global");
    ScopeSays(b, "provider");
    ScopeSays(b, "owner");
    ScopeSays(b, "workspace");
    ScopeSays(b, "tenant");
  }

  // --------------------------------------------- periods, thresholds, metrics

  /** A budget's period starts with the day, the year or, whatever else it says, the month. */
  lemma PeriodsExactly(clock: Clock, period: string)
    ensures Says(period, "daily") ==> PeriodStart(clock, period) == clock.day
    ensures Says(period, "yearly") || Says(period, "annual") ==> PeriodStart(clock, period) == clock.year
    ensures !Says(period, "daily") && !Says(period, "yearly") && !Says(period, "annual") ==> PeriodStart(clock, period) == clock.month
  {
    hide Says, TrimSpace, ToLower;
    SaysWord(period, "daily");
    SaysWord(period, "yearly");
    SaysWord(period, "annual");
    assert "daily"[0] != "yearly"[0] && "daily"[0] != "annual"[0];
  }

  /** The figures of a summary, and the band its status names. */
  lemma SummaryExactly(b: Budget, usage: seq<Row>, clock: Clock)
    requires b.limit > 0.0
    ensures var s := Summarize(b, usage, clock); var spent := 100.0 * s.actual;
      && s.budget == b && s.actual == Cost(usage, PeriodStart(clock, b.period), OfBudget(b))
      && s.remaining + s.actual == b.limit && s.pct * b.limit == spent
      && s.status == (if spent >= b.hard as real * b.limit then "hard_limit"
                      else if spent >= b.soft as real * b.limit then "warning" else "ok")
  {
    hide Cost, PeriodStart, UsagePct;
    var actual := BudgetActual(b, usage, clock);
    PctOfLimit(b, actual);
    ScaleOrder(UsagePct(b, actual), b.hard as real, b.limit);
    ScaleOrder(UsagePct(b, actual), b.soft as real, b.limit);
  }

  lemma PctOfLimit(b: Budget, actual: real)
    requires b.limit > 0.0
    ensures UsagePct(b, actual) * b.limit == 100.0 * actual
  {
    var q := actual / b.limit;
    assert q * b.limit == actual;
    assert q * 100.0 * b.limit == 100.0 * (q * b.limit);
  }

  /** A token quota adds up the token rows of the period; a cost quota is the superseding sum. */
  lemma QuotasExactly(metric: string, period: string, usage: seq<Row>, u: Row, clock: Clock)
    ensures metric == "cost" || metric == "cost_usd" ==>
              QuotaUsage(metric, period, usage, clock) == Cost(usage, PeriodStart(clock, period), Everything)
    ensures metric == "tokens" ==>
      && QuotaUsage(metric, period, [], clock) == 0.0
      && QuotaUsage(metric, period, usage + [u], clock) == QuotaUsage(metric, period, usage, clock)
           + if u.periodStart >= PeriodStart(clock, period) && Says(u.metric, "tokens") then u.quantity else 0.0
  {
    hide TrimSpace, ToLower, PeriodStart, Cost;
    assert (usage + [u])[..|usage|] == usage;
    assert "tokens"[0] != "cost"[0] && "tokens"[0] != "cost_usd"[0];
  }
}

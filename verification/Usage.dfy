/** AI spend accounting: usage rows, budget scopes, and the cost sum in which an authoritative
    spend import supersedes a provider's own gateway estimates. */
module Usage {
  import opened Sequences
  import opened Strings
  import opened Wrappers

  /** A usage record joined with its provider and (when it has one) its instance. `raw` holds the
      string-valued fields of the record's JSON; an unreadable record has none. */
  datatype Row = Row(
    providerId: string, providerName: string, periodStart: int, periodEnd: int,
    metric: string, quantity: real, cost: real,
    owner: Option<string>, workspace: Option<string>, tenant: Option<string>, raw: map<string, string>)

  datatype Budget = Budget(scope: string, scopeRef: string, limit: real, period: string, soft: int, hard: int)

  /** The starts of the current day, month and year. */
  datatype Clock = Clock(day: int, month: int, year: int)

  function PeriodStart(clock: Clock, period: string): int {
    var p := ToLower(TrimSpace(period));
    if p == "daily" then clock.day
    else if p == "yearly" || p == "annual" then clock.year
    else clock.month
  }

  function RawField(raw: map<string, string>, key: string): string {
    if key in raw then TrimSpace(raw[key]) else ""
  }

  function Source(u: Row): string {
    ToLower(RawField(u.raw, "source"))
  }

  predicate Authoritative(u: Row) {
    var s := Source(u);
    s == "openai_costs_api" || s == "anthropic_cost_report" || s == "litellm_spend"
  }

  predicate Estimate(u: Row) {
    Source(u) == "opord_gateway_lite"
  }

  function ScopeOf(b: Budget): string {
    ToLower(TrimSpace(b.scope))
  }

  /** Does a usage row count toward a budget? */
  predicate ScopeMatches(b: Budget, u: Row) {
    var ref := TrimSpace(b.scopeRef);
    var scope := ScopeOf(b);
    if scope == "" || scope == "global" then true
    else if scope == "provider" then ref == "" || EqualFold(u.providerName, ref) || u.providerId == ref
    else if scope == "owner" then
      (u.owner.Some? && EqualFold(u.owner.value, ref)) || EqualFold(RawField(u.raw, "owner"), ref)
    else if scope == "workspace" then
      || (u.workspace.Some? && EqualFold(u.workspace.value, ref))
      || EqualFold(RawField(u.raw, "workspace"), ref)
      || EqualFold(RawField(u.raw, "workspace_id"), ref)
    else if scope == "tenant" then (if ref == "" then u.tenant.None? else u.tenant == Some(ref))
    else false
  }

  /** The row filters the cost sum is called with. */
  datatype Scope = Everything | OfBudget(budget: Budget)

  predicate InScope(sc: Scope, u: Row) {
    match sc
    case Everything => true
    case OfBudget(b) => ScopeMatches(b, u)
  }

  predicate Counts(u: Row, start: int, sc: Scope) {
    u.periodStart >= start && InScope(sc, u)
  }

  function ProviderKey(u: Row): string {
    ToLower(u.providerName)
  }

  // -------------------------------------------------------------- the sum

  /** The providers that have an authoritative figure in the window. */
  function Superseded(usage: seq<Row>, start: int, sc: Scope): set<string> {
    set u | u in usage && Counts(u, start, sc) && Authoritative(u) :: ProviderKey(u)
  }

  function Amount(u: Row, start: int, sc: Scope, sup: set<string>): real {
    if !Counts(u, start, sc) || (Estimate(u) && ProviderKey(u) in sup) then 0.0 else u.cost
  }

  function Total(usage: seq<Row>, start: int, sc: Scope, sup: set<string>): real {
    if usage == [] then 0.0
    else Total(usage[..|usage|-1], start, sc, sup) + Amount(usage[|usage|-1], start, sc, sup)
  }

  lemma TotalAppend(usage: seq<Row>, u: Row, start: int, sc: Scope, sup: set<string>)
    ensures Total([], start, sc, sup) == 0.0
    ensures Total(usage + [u], start, sc, sup) == Total(usage, start, sc, sup) + Amount(u, start, sc, sup)
  {
    assert (usage + [u])[..|usage|] == usage;
  }

  function Cost(usage: seq<Row>, start: int, sc: Scope): real {
    Total(usage, start, sc, Superseded(usage, start, sc))
  }

  lemma SupersededAppend(usage: seq<Row>, u: Row, start: int, sc: Scope)
    ensures Superseded(usage + [u], start, sc)
         == Superseded(usage, start, sc) + if Counts(u, start, sc) && Authoritative(u) then {ProviderKey(u)} else {}
  {
    hide ScopeMatches, Source, ProviderKey;
    var add := if Counts(u, start, sc) && Authoritative(u) then {ProviderKey(u)} else {};
    assert u in usage + [u];
    forall p ensures p in Superseded(usage + [u], start, sc) <==> p in Superseded(usage, start, sc) + add {
      if p in Superseded(usage + [u], start, sc) {
        var v :| v in usage + [u] && Counts(v, start, sc) && Authoritative(v) && ProviderKey(v) == p;
        assert v in usage || v == u;
      }
      if p in Superseded(usage, start, sc) {
        var v :| v in usage && Counts(v, start, sc) && Authoritative(v) && ProviderKey(v) == p;
        assert v in usage + [u];
      }
    }
  }

  lemma AuthoritativeIsNoEstimate(u: Row)
    requires Authoritative(u)
    ensures !Estimate(u)
  {
    assert |"openai_costs_api"| == 16 && |"anthropic_cost_report"| == 21 && |"litellm_spend"| == 13;
  }

  /** First pass of `aiCostUSD`: which providers have an authoritative figure. */
  method AuthoritativeProviders(usage: seq<Row>, start: int, sc: Scope) returns (authoritative: map<string, bool>)
    ensures authoritative.Keys == Superseded(usage, start, sc)
    ensures forall p :: p in authoritative ==> authoritative[p]
  {
    hide ScopeMatches, Source, ProviderKey;
    authoritative := map[];
    for i := 0 to |usage|
      invariant authoritative.Keys == Superseded(usage[..i], start, sc)
      invariant forall p :: p in authoritative ==> authoritative[p]
    {
      var u := usage[i];
      SupersededAppend(usage[..i], u, start, sc);
      assert usage[..i+1] == usage[..i] + [u];
      if u.periodStart < start || !InScope(sc, u) {
        continue;
      }
      if Authoritative(u) {
        authoritative := authoritative[ProviderKey(u) := true];
      }
    }
    assert usage[..|usage|] == usage;
  }

  /** Second pass: add up what is not superseded. */
  method AiCostUSD(usage: seq<Row>, start: int, sc: Scope) returns (total: real)
    ensures total == Cost(usage, start, sc)
  {
    hide ScopeMatches, Source, ProviderKey;
    var authoritative := AuthoritativeProviders(usage, start, sc);
    total := 0.0;
    for i := 0 to |usage|
      invariant total == Total(usage[..i], start, sc, authoritative.Keys)
    {
      var u := usage[i];
      TotalAppend(usage[..i], u, start, sc, authoritative.Keys);
      assert usage[..i+1] == usage[..i] + [u];
      if u.periodStart < start || !InScope(sc, u) {
        continue;
      }
      if Estimate(u) && ProviderKey(u) in authoritative && authoritative[ProviderKey(u)] {
        continue;
      }
      total := total + u.cost;
    }
    assert usage[..|usage|] == usage;
  }

  // ------------------------------------------------- what the sum means

  /** The rows of one provider (by lowercase name) that count. */
  function RowsOf(usage: seq<Row>, start: int, sc: Scope, p: string): seq<Row> {
    if usage == [] then []
    else
      var u := usage[|usage|-1];
      var before := RowsOf(usage[..|usage|-1], start, sc, p);
      if Counts(u, start, sc) && ProviderKey(u) == p then before + [u] else before
  }

  function Estimates(rows: seq<Row>): seq<Row> {
    if rows == [] then []
    else
      var before := Estimates(rows[..|rows|-1]);
      if Estimate(rows[|rows|-1]) then before + [rows[|rows|-1]] else before
  }

  function SumCost(rows: seq<Row>): real {
    if rows == [] then 0.0 else SumCost(rows[..|rows|-1]) + rows[|rows|-1].cost
  }

  predicate HasAuthoritative(rows: seq<Row>) {
    exists u :: u in rows && Authoritative(u)
  }

  /** One provider's spend: everything, or everything but its estimates once it has an authoritative row. */
  function ProviderSpend(usage: seq<Row>, start: int, sc: Scope, p: string): real {
    var rows := RowsOf(usage, start, sc, p);
    if HasAuthoritative(rows) then SumCost(rows) - SumCost(Estimates(rows)) else SumCost(rows)
  }

  function SpendOver(usage: seq<Row>, start: int, sc: Scope, names: seq<string>): real {
    if names == [] then 0.0
    else SpendOver(usage, start, sc, names[..|names|-1]) + ProviderSpend(usage, start, sc, names[|names|-1])
  }

  /** The part of the sum that falls on a set of providers. */
  function TotalIn(usage: seq<Row>, start: int, sc: Scope, sup: set<string>, ps: set<string>): real {
    if usage == [] then 0.0
    else
      var u := usage[|usage|-1];
      TotalIn(usage[..|usage|-1], start, sc, sup, ps) + if ProviderKey(u) in ps then Amount(u, start, sc, sup) else 0.0
  }

  lemma {:induction false} TotalInAdds(usage: seq<Row>, start: int, sc: Scope, sup: set<string>, ps: set<string>, p: string)
    requires p !in ps
    ensures TotalIn(usage, start, sc, sup, ps + {p}) == TotalIn(usage, start, sc, sup, ps) + TotalIn(usage, start, sc, sup, {p})
  {
    hide ScopeMatches, Source, ProviderKey;
    if usage != [] {
      TotalInAdds(usage[..|usage|-1], start, sc, sup, ps, p);
    }
  }

  lemma {:induction false} TotalInAll(usage: seq<Row>, start: int, sc: Scope, sup: set<string>, ps: set<string>)
    requires forall u :: u in usage && Counts(u, start, sc) ==> ProviderKey(u) in ps
    ensures TotalIn(usage, start, sc, sup, ps) == Total(usage, start, sc, sup)
    ensures TotalIn(usage, start, sc, sup, {}) == 0.0
  {
    hide ScopeMatches, Source, ProviderKey;
    if usage != [] {
      TotalInAll(usage[..|usage|-1], start, sc, sup, ps);
      assert usage[|usage|-1] in usage;
    }
  }

  lemma {:induction false} TotalInOne(usage: seq<Row>, start: int, sc: Scope, sup: set<string>, p: string)
    ensures var rows := RowsOf(usage, start, sc, p);
      TotalIn(usage, start, sc, sup, {p}) == SumCost(rows) - if p in sup then SumCost(Estimates(rows)) else 0.0
  {
    hide ScopeMatches, Source, ProviderKey;
    if usage != [] {
      var u := usage[|usage|-1];
      var before := RowsOf(usage[..|usage|-1], start, sc, p);
      TotalInOne(usage[..|usage|-1], start, sc, sup, p);
      if Counts(u, start, sc) && ProviderKey(u) == p {
        SumsAppend(before, u);
      }
    }
  }

  lemma SumsAppend(rows: seq<Row>, u: Row)
    ensures SumCost(rows + [u]) == SumCost(rows) + u.cost
    ensures SumCost(Estimates(rows + [u])) == SumCost(Estimates(rows)) + if Estimate(u) then u.cost else 0.0
  {
    hide ScopeMatches, Source, ProviderKey;
    assert (rows + [u])[..|rows|] == rows;
    if Estimate(u) {
      assert (Estimates(rows) + [u])[..|Estimates(rows)|] == Estimates(rows);
    } else {
      assert Estimates(rows + [u]) == Estimates(rows);
    }
  }

  lemma {:induction false} RowsOfMembers(usage: seq<Row>, start: int, sc: Scope, p: string)
    ensures forall u :: u in RowsOf(usage, start, sc, p) <==> u in usage && Counts(u, start, sc) && ProviderKey(u) == p
  {
    hide ScopeMatches, Source, ProviderKey;
    if usage != [] {
      RowsOfMembers(usage[..|usage|-1], start, sc, p);
      assert usage == usage[..|usage|-1] + [usage[|usage|-1]];
    }
  }

  lemma ProviderSpendIsShare(usage: seq<Row>, start: int, sc: Scope, p: string)
    ensures ProviderSpend(usage, start, sc, p) == TotalIn(usage, start, sc, Superseded(usage, start, sc), {p})
  {
    hide ScopeMatches, Source, ProviderKey;
    RowsOfMembers(usage, start, sc, p);
    TotalInOne(usage, start, sc, Superseded(usage, start, sc), p);
  }

  lemma {:induction false} SpendOverIsTotalIn(usage: seq<Row>, start: int, sc: Scope, names: seq<string>)
    requires Distinct(names)
    ensures SpendOver(usage, start, sc, names) == TotalIn(usage, start, sc, Superseded(usage, start, sc), set n | n in names)
  {
    hide ScopeMatches, Source, ProviderKey;
    var sup := Superseded(usage, start, sc);
    var all := set n | n in names;
    if names == [] {
      TotalInAll(usage, start, sc, sup, set u | u in usage :: ProviderKey(u));
      assert all == {};
    } else {
      var p := names[|names|-1];
      var before := names[..|names|-1];
      SpendOverIsTotalIn(usage, start, sc, before);
      ProviderSpendIsShare(usage, start, sc, p);
      TotalInAdds(usage, start, sc, sup, (set n | n in before), p);
      assert names == before + [p];
      assert all == (set n | n in before) + {p};
    }
  }

  /** The two-pass total is the sum, over any enumeration of the lowercase provider names, of each
      provider's own spend. */
  lemma CostByProvider(usage: seq<Row>, start: int, sc: Scope, names: seq<string>)
    requires Distinct(names)
    requires forall u :: u in usage && Counts(u, start, sc) ==> ProviderKey(u) in names
    ensures Cost(usage, start, sc) == SpendOver(usage, start, sc, names)
  {
    hide ScopeMatches, Source, ProviderKey;
    SpendOverIsTotalIn(usage, start, sc, names);
    TotalInAll(usage, start, sc, Superseded(usage, start, sc), set n | n in names);
  }

  lemma {:induction false} TotalConcat(a: seq<Row>, b: seq<Row>, start: int, sc: Scope, sup: set<string>)
    ensures Total(a + b, start, sc, sup) == Total(a, start, sc, sup) + Total(b, start, sc, sup)
  {
    hide ScopeMatches, Source, ProviderKey;
    if b == [] {
      assert a + b == a;
    } else {
      assert (a + b)[..|a + b|-1] == a + b[..|b|-1];
      TotalConcat(a, b[..|b|-1], start, sc, sup);
    }
  }

  lemma {:induction false} TotalPermutes(a: seq<Row>, b: seq<Row>, start: int, sc: Scope, sup: set<string>)
    requires multiset(a) == multiset(b)
    ensures Total(a, start, sc, sup) == Total(b, start, sc, sup)
    decreases |a|
  {
    hide ScopeMatches, Source, ProviderKey;
    if a == [] {
      assert |b| == |multiset(b)| == |multiset(a)| == 0;
    } else {
      var init := a[..|a|-1];
      var l, x, r := TakeOut(a, b);
      TotalPermutes(init, l + r, start, sc, sup);
      TotalConcat(l, r, start, sc, sup);
      TotalConcat(l + [x], r, start, sc, sup);
      TotalConcat(l, [x], start, sc, sup);
      TotalConcat(init, [x], start, sc, sup);
    }
  }

  /** Row order does not matter. */
  lemma CostPermutes(a: seq<Row>, b: seq<Row>, start: int, sc: Scope)
    requires multiset(a) == multiset(b)
    ensures Cost(a, start, sc) == Cost(b, start, sc)
  {
    hide ScopeMatches, Source, ProviderKey;
    assert forall u :: u in a <==> u in multiset(a);
    assert forall u :: u in b <==> u in multiset(b);
    assert Superseded(a, start, sc) == Superseded(b, start, sc);
    TotalPermutes(a, b, start, sc, Superseded(a, start, sc));
  }

  lemma {:induction false} SupersedingDropsEstimates(usage: seq<Row>, start: int, sc: Scope, sup: set<string>, p: string)
    requires p !in sup
    ensures Total(usage, start, sc, sup + {p}) == Total(usage, start, sc, sup) - SumCost(Estimates(RowsOf(usage, start, sc, p)))
  {
    hide ScopeMatches, Source, ProviderKey;
    if usage != [] {
      var u := usage[|usage|-1];
      SupersedingDropsEstimates(usage[..|usage|-1], start, sc, sup, p);
      SumsAppend(RowsOf(usage[..|usage|-1], start, sc, p), u);
    }
  }

  /** What one more row does to the total. */
  lemma SupersessionStep(usage: seq<Row>, u: Row, start: int, sc: Scope)
    ensures var before := Cost(usage, start, sc);
            var after := Cost(usage + [u], start, sc);
            var p := ProviderKey(u);
            var superseded := HasAuthoritative(RowsOf(usage, start, sc, p));
            if !Counts(u, start, sc) then after == before
            else if Authoritative(u) && !superseded then
              after == before + u.cost - SumCost(Estimates(RowsOf(usage, start, sc, p)))
            else if Estimate(u) && superseded then after == before
            else after == before + u.cost
  {
    hide ScopeMatches, Source, ProviderKey;
    var sup := Superseded(usage, start, sc);
    var p := ProviderKey(u);
    RowsOfMembers(usage, start, sc, p);
    assert (usage + [u])[..|usage|] == usage;
    SupersededAppend(usage, u, start, sc);
    if Authoritative(u) { AuthoritativeIsNoEstimate(u); }
    assert p in sup <==> HasAuthoritative(RowsOf(usage, start, sc, p));
    if Counts(u, start, sc) && Authoritative(u) && p !in sup {
      SupersedingDropsEstimates(usage, start, sc, sup, p);
    } else {
      assert Superseded(usage + [u], start, sc) == sup;
    }
  }

  // ----------------------------------------------------- budgets and quotas

  function BudgetActual(b: Budget, usage: seq<Row>, clock: Clock): real {
    Cost(usage, PeriodStart(clock, b.period), OfBudget(b))
  }

  function UsagePct(b: Budget, actual: real): real {
    if b.limit > 0.0 then actual / b.limit * 100.0 else 0.0
  }

  function BudgetStatus(b: Budget, actual: real): string {
    var pct := UsagePct(b, actual);
    if pct >= b.hard as real then "hard_limit" else if pct >= b.soft as real then "warning" else "ok"
  }

  datatype Summary = Summary(budget: Budget, actual: real, remaining: real, pct: real, status: string)

  function Summarize(b: Budget, usage: seq<Row>, clock: Clock): Summary {
    var actual := BudgetActual(b, usage, clock);
    Summary(b, actual, b.limit - actual, UsagePct(b, actual), BudgetStatus(b, actual))
  }

  method ListBudgetSummaries(budgets: seq<Budget>, usage: seq<Row>, clock: Clock) returns (out: seq<Summary>)
    ensures |out| == |budgets|
    ensures forall i :: 0 <= i < |out| ==> out[i] == Summarize(budgets[i], usage, clock)
  {
    out := [];
    for i := 0 to |budgets|
      invariant |out| == i
      invariant forall j :: 0 <= j < i ==> out[j] == Summarize(budgets[j], usage, clock)
    {
      var b := budgets[i];
      var actual := AiCostUSD(usage, PeriodStart(clock, b.period), OfBudget(b));
      var pct := 0.0;
      if b.limit > 0.0 {
        pct := actual / b.limit * 100.0;
      }
      var status := "ok";
      if pct >= b.hard as real {
        status := "hard_limit";
      } else if pct >= b.soft as real {
        status := "warning";
      }
      out := out + [Summary(b, actual, b.limit - actual, pct, status)];
    }
  }

  /** A budget with a positive limit is at its hard limit exactly when its spend has reached that
      share of the limit; without one the spend plays no part. */
  lemma HardLimitReached(b: Budget, actual: real)
    ensures b.limit > 0.0 ==> (BudgetStatus(b, actual) == "hard_limit" <==> actual * 100.0 >= b.hard as real * b.limit)
    ensures b.limit <= 0.0 ==> (BudgetStatus(b, actual) == "hard_limit" <==> b.hard <= 0)
  {
    if b.limit > 0.0 {
      var q := actual / b.limit;
      assert q * b.limit == actual;
      ScaleOrder(q * 100.0, b.hard as real, b.limit);
      assert q * 100.0 * b.limit == actual * 100.0;
    }
  }

  lemma ScaleOrder(x: real, y: real, k: real)
    requires k > 0.0
    ensures x >= y <==> x * k >= y * k
  {
    if x >= y { assert (x - y) * k >= 0.0; } else { assert (y - x) * k > 0.0; }
  }

  lemma Distribute(n: nat, c: real)
    ensures (n + 1) as real * c == n as real * c + c
  {
    assert (n + 1) as real == n as real + 1.0;
  }

  function TokensUsed(metric: string, start: int, usage: seq<Row>): real {
    if usage == [] then 0.0
    else
      var u := usage[|usage|-1];
      TokensUsed(metric, start, usage[..|usage|-1])
      + if u.periodStart >= start && EqualFold(TrimSpace(u.metric), metric) then u.quantity else 0.0
  }

  function QuotaUsage(metric: string, period: string, usage: seq<Row>, clock: Clock): real {
    var start := PeriodStart(clock, period);
    if metric == "cost_usd" || metric == "cost" then Cost(usage, start, Everything) else TokensUsed(metric, start, usage)
  }

  method AiQuotaUsage(metric: string, period: string, usage: seq<Row>, clock: Clock) returns (total: real)
    ensures total == QuotaUsage(metric, period, usage, clock)
  {
    var start := PeriodStart(clock, period);
    if metric == "cost_usd" || metric == "cost" {
      total := AiCostUSD(usage, start, Everything);
      return;
    }
    total := 0.0;
    for i := 0 to |usage|
      invariant total == TokensUsed(metric, start, usage[..i])
    {
      var u := usage[i];
      assert usage[..i+1][..i] == usage[..i];
      if u.periodStart < start {
        continue;
      }
      if EqualFold(TrimSpace(u.metric), metric) {
        total := total + u.quantity;
      }
    }
    assert usage[..|usage|] == usage;
  }
}

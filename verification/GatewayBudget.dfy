/** The gateway's spend gate under concurrency: a call is let through on the spend recorded so far,
    and its own cost is recorded when it completes. */
module GatewayBudget {
  import opened Strings
  import opened Wrappers
  import opened Usage
  import opened Governance

  datatype Provider = Provider(name: string, id: string)

  /** `calls` holds the calls that have passed the gate and not completed, by their provider;
      `providers` those configured. */
  datatype State = State(usage: seq<Row>, calls: map<nat, Provider>, providers: set<Provider>)

  datatype Step =
    | Gate(call: nat, provider: Provider, world: World)
    | Record(call: nat, row: Row)
    | Fail(call: nat)

  /** A budget the gateway looks at. */
  predicate WatchedBudget(b: Budget) {
    GatewayScope(b) && b.limit > 0.0
  }

  predicate CoveredBy(b: Budget, provider: string) {
    Applies(b, GatewayRequest(provider))
  }

  /** The budget refers to this provider by its id, which is not its name. */
  predicate CountsById(b: Budget, p: Provider) {
    && ScopeOf(b) == "provider" && TrimSpace(b.scopeRef) != ""
    && p.id == TrimSpace(b.scopeRef) && !EqualFold(p.name, TrimSpace(b.scopeRef))
  }

  function InFlightCalls(b: Budget, s: State): set<nat> {
    set i | i in s.calls && CoveredBy(b, s.calls[i].name)
  }

  function InFlight(b: Budget, s: State): nat {
    |InFlightCalls(b, s)|
  }

  /** The row a completed call records: an estimate for its provider, costing at most c. */
  predicate GatewayRow(c: real, p: Provider, u: Row) {
    && Estimate(u) && u.providerName == p.name && u.providerId == p.id
    && u.metric == "tokens" && u.quantity != 0.0 && 0.0 <= u.cost <= c
  }

  predicate Enabled(b: Budget, clock: Clock, c: real, s: State, step: Step) {
    match step
    case Gate(i, p, w) =>
      i !in s.calls && p in s.providers && w.usage == s.usage && w.clock == clock && b in w.budgets && !GatewayBlocked(w, p.name)
    case Record(i, u) => i in s.calls && GatewayRow(c, s.calls[i], u)
    case Fail(i) => i in s.calls
  }

  function Apply(b: Budget, clock: Clock, c: real, s: State, step: Step): State
    requires Enabled(b, clock, c, s, step)
  {
    match step
    case Gate(i, p, _) => s.(calls := s.calls[i := p])
    case Record(i, u) => s.(usage := s.usage + [u], calls := s.calls - {i})
    case Fail(i) => s.(calls := s.calls - {i})
  }

  /** A run within one period in which at most k covered calls are in flight at any time. */
  predicate IsRun(b: Budget, clock: Clock, c: real, k: nat, s: State, steps: seq<Step>)
    decreases |steps|
  {
    && InFlight(b, s) <= k
    && (steps != [] ==> Enabled(b, clock, c, s, steps[0]) && IsRun(b, clock, c, k, Apply(b, clock, c, s, steps[0]), steps[1..]))
  }

  function Exec(b: Budget, clock: Clock, c: real, k: nat, s: State, steps: seq<Step>): State
    requires IsRun(b, clock, c, k, s, steps)
    decreases |steps|
  {
    if steps == [] then s else Exec(b, clock, c, k, Apply(b, clock, c, s, steps[0]), steps[1..])
  }

  function Actual(b: Budget, clock: Clock, s: State): real {
    BudgetActual(b, s.usage, clock)
  }

  /** The spend at which the gate closes: hardPct percent of the limit. */
  function Threshold(b: Budget): real {
    b.hard as real * b.limit / 100.0
  }

  /** Recorded spend, with every covered call in flight counted at its largest cost. */
  function Exposure(b: Budget, clock: Clock, c: real, s: State): real {
    Actual(b, clock, s) + Times(InFlight(b, s), c)
  }

  function Times(n: nat, c: real): real {
    if n == 0 then 0.0 else Times(n - 1, c) + c
  }

  lemma {:induction false} TimesIsProduct(n: nat, c: real)
    ensures Times(n, c) == n as real * c
  {
    if n > 0 {
      TimesIsProduct(n - 1, c);
      Distribute(n - 1, c);
    }
  }

  lemma {:induction false} TimesMonotone(m: nat, n: nat, c: real)
    requires m <= n && c >= 0.0
    ensures 0.0 <= Times(m, c) <= Times(n, c)
    decreases n
  {
    if m < n {
      TimesMonotone(m, n - 1, c);
    } else if m > 0 {
      TimesMonotone(m - 1, n - 1, c);
    }
  }

  lemma CallsChange(b: Budget, s: State, i: nat, p: Provider, t: State)
    requires i !in t.calls && s.calls == t.calls[i := p]
    ensures InFlight(b, s) == InFlight(b, t) + if CoveredBy(b, p.name) then 1 else 0
  {
    hide CoveredBy;
    var x, y := InFlightCalls(b, s), InFlightCalls(b, t);
    assert x == if CoveredBy(b, p.name) then y + {i} else y;
  }

  /** A budget counts a provider's gateway rows exactly when the gate covers the provider or the
      budget refers to it by id; so the two agree exactly when it does not. */
  lemma CoveredIffCounted(b: Budget, c: real, p: Provider, u: Row)
    requires WatchedBudget(b) && GatewayRow(c, p, u)
    ensures ScopeMatches(b, u) <==> CoveredBy(b, p.name) || CountsById(b, p)
    ensures (CoveredBy(b, p.name) <==> ScopeMatches(b, u)) <==> !CountsById(b, p)
  {
    hide TrimSpace, ToLower, Estimate;
  }

  /** A gateway row raises the recorded spend by at most c, and only if the budget counts it. */
  lemma RowRaises(b: Budget, clock: Clock, c: real, p: Provider, usage: seq<Row>, u: Row)
    requires GatewayRow(c, p, u)
    ensures var before := BudgetActual(b, usage, clock);
            var after := BudgetActual(b, usage + [u], clock);
            before <= after <= before + (if ScopeMatches(b, u) then c else 0.0)
  {
    hide ScopeMatches, Source, Cost;
    SupersessionStep(usage, u, PeriodStart(clock, b.period), OfBudget(b));
    if Authoritative(u) { AuthoritativeIsNoEstimate(u); }
  }

  /** A gate that opens has seen the budget below its threshold. */
  lemma GateOpenBelow(b: Budget, w: World, provider: string)
    requires WatchedBudget(b) && b in w.budgets && !GatewayBlocked(w, provider) && CoveredBy(b, provider)
    ensures BudgetActual(b, w.usage, w.clock) < Threshold(b)
  {
    hide Applies, GatewayScope, BudgetStatus, BudgetActual, ThroughputSpent;
    assert !AtHardLimit(b, w);
    HardLimitReached(b, BudgetActual(b, w.usage, w.clock));
  }

  /** Calls are of configured providers, and the budget refers to none of these by id. */
  predicate ByName(b: Budget, s: State) {
    (forall i :: i in s.calls ==> s.calls[i] in s.providers) && forall p :: p in s.providers ==> !CountsById(b, p)
  }

  ghost predicate Within(b: Budget, clock: Clock, c: real, k: nat, s: State) {
    ByName(b, s) && Exposure(b, clock, c, s) < Threshold(b) + Times(k, c)
  }

  lemma StepWithin(b: Budget, clock: Clock, c: real, k: nat, s: State, step: Step)
    requires WatchedBudget(b) && c >= 0.0 && Enabled(b, clock, c, s, step)
    requires InFlight(b, Apply(b, clock, c, s, step)) <= k && Within(b, clock, c, k, s)
    ensures Within(b, clock, c, k, Apply(b, clock, c, s, step))
  {
    hide WatchedBudget, GatewayBlocked, BudgetActual, InFlight, CoveredBy, CountsById, ScopeMatches, Threshold, GatewayRow;
    var t := Apply(b, clock, c, s, step);
    match step
    case Gate(i, p, w) =>
      CallsChange(b, t, i, p, s);
      if CoveredBy(b, p.name) {
        GateOpenBelow(b, w, p.name);
        TimesMonotone(InFlight(b, t), k, c);
      }
    case Record(i, u) =>
      CallsChange(b, s, i, s.calls[i], t);
      RowRaises(b, clock, c, s.calls[i], s.usage, u);
      CoveredIffCounted(b, c, s.calls[i], u);
    case Fail(i) =>
      CallsChange(b, s, i, s.calls[i], t);
  }

  lemma {:induction false} RunWithin(b: Budget, clock: Clock, c: real, k: nat, s: State, steps: seq<Step>)
    requires WatchedBudget(b) && c >= 0.0 && IsRun(b, clock, c, k, s, steps) && Within(b, clock, c, k, s)
    ensures Within(b, clock, c, k, Exec(b, clock, c, k, s, steps))
    decreases |steps|
  {
    hide WatchedBudget, Enabled, Apply, InFlight, Within;
    if steps != [] {
      StepWithin(b, clock, c, k, s, steps[0]);
      RunWithin(b, clock, c, k, Apply(b, clock, c, s, steps[0]), steps[1..]);
    }
  }

  /** With calls costing at most c each and at most k of them in flight, the spend of a global or
      provider budget that refers to no configured provider by id stays strictly below
      hardPct * limit / 100 + k * c throughout a period. */
  lemma OverspendBounded(b: Budget, clock: Clock, c: real, k: nat, s: State, steps: seq<Step>)
    requires WatchedBudget(b) && ByName(b, s) && c >= 0.0 && IsRun(b, clock, c, k, s, steps)
    requires Actual(b, clock, s) + InFlight(b, s) as real * c < Threshold(b) + k as real * c
    ensures Actual(b, clock, Exec(b, clock, c, k, s, steps)) < Threshold(b) + k as real * c
  {
    hide Threshold, WatchedBudget, ByName, IsRun, Exec, BudgetActual, InFlight;
    var t := Exec(b, clock, c, k, s, steps);
    TimesIsProduct(InFlight(b, s), c);
    TimesIsProduct(k, c);
    RunWithin(b, clock, c, k, s, steps);
    TimesMonotone(0, InFlight(b, t), c);
  }

  /** Recorded spend never falls while only gateway rows are added, so a closed gate stays closed. */
  lemma {:induction false} SpendOnlyGrows(b: Budget, clock: Clock, c: real, k: nat, s: State, steps: seq<Step>)
    requires IsRun(b, clock, c, k, s, steps)
    ensures Actual(b, clock, Exec(b, clock, c, k, s, steps)) >= Actual(b, clock, s)
    decreases |steps|
  {
    hide GatewayBlocked, BudgetActual, InFlight, CoveredBy, GatewayRow, ScopeMatches;
    if steps != [] {
      if steps[0].Record? {
        RowRaises(b, clock, c, s.calls[steps[0].call], s.usage, steps[0].row);
      }
      SpendOnlyGrows(b, clock, c, k, Apply(b, clock, c, s, steps[0]), steps[1..]);
    }
  }

  lemma ClosedGateStaysClosed(b: Budget, clock: Clock, c: real, k: nat, s: State, steps: seq<Step>, w: World, v: World, provider: string)
    requires WatchedBudget(b) && IsRun(b, clock, c, k, s, steps)
    requires b in w.budgets && w.usage == s.usage && w.clock == clock
    requires CoveredBy(b, provider) && AtHardLimit(b, w)
    requires b in v.budgets && v.usage == Exec(b, clock, c, k, s, steps).usage && v.clock == clock
    ensures GatewayBlocked(w, provider) && GatewayBlocked(v, provider)
  {
    hide GatewayScope, Applies, BudgetStatus, BudgetActual, IsRun, Exec, ThroughputSpent;
    SpendOnlyGrows(b, clock, c, k, s, steps);
    HardLimitReached(b, Actual(b, clock, s));
    HardLimitReached(b, BudgetActual(b, v.usage, clock));
    assert AtHardLimit(b, v);
  }

  // ------------------------------------------------------- the bound is exact

  lemma {:induction false} RunConcat(b: Budget, clock: Clock, c: real, k: nat, s: State, x: seq<Step>, y: seq<Step>)
    requires IsRun(b, clock, c, k, s, x) && IsRun(b, clock, c, k, Exec(b, clock, c, k, s, x), y)
    ensures IsRun(b, clock, c, k, s, x + y)
    ensures Exec(b, clock, c, k, s, x + y) == Exec(b, clock, c, k, Exec(b, clock, c, k, s, x), y)
    decreases |x|
  {
    hide Enabled, Apply, InFlight;
    if x == [] {
      assert x + y == y;
    } else {
      assert (x + y)[0] == x[0] && (x + y)[1..] == x[1..] + y;
      RunConcat(b, clock, c, k, Apply(b, clock, c, s, x[0]), x[1..], y);
    }
  }

  function Waiting(n: nat, p: Provider): (m: map<nat, Provider>)
    ensures forall i: nat :: i in m <==> i < n
    ensures forall i :: i in m ==> m[i] == p
  {
    if n == 0 then map[] else Waiting(n - 1, p)[n - 1 := p]
  }

  lemma {:induction false} WaitingInFlight(b: Budget, usage: seq<Row>, n: nat, p: Provider)
    ensures InFlight(b, State(usage, Waiting(n, p), {p})) == if CoveredBy(b, p.name) then n else 0
  {
    hide CoveredBy;
    if n == 0 {
      assert InFlightCalls(b, State(usage, Waiting(0, p), {p})) == {};
    } else {
      WaitingInFlight(b, usage, n - 1, p);
      CallsChange(b, State(usage, Waiting(n, p), {p}), n - 1, p, State(usage, Waiting(n - 1, p), {p}));
    }
  }

  /** A world in which only this budget is in force. */
  function OnlyBudget(b: Budget, usage: seq<Row>, clock: Clock): World {
    World([], [], [b], [], usage, clock)
  }

  lemma OpensWhen(b: Budget, usage: seq<Row>, clock: Clock, p: string)
    requires WatchedBudget(b) && (BudgetActual(b, usage, clock) < Threshold(b) || !CoveredBy(b, p))
    ensures !GatewayBlocked(OnlyBudget(b, usage, clock), p)
  {
    hide Applies, GatewayScope, BudgetStatus, BudgetActual, ThroughputSpent;
    HardLimitReached(b, BudgetActual(b, usage, clock));
    assert forall x :: x in OnlyBudget(b, usage, clock).budgets ==> x == b;
  }

  /** A call of provider p that costs the most it can. */
  function DearestRow(b: Budget, clock: Clock, c: real, p: Provider): Row {
    var start := PeriodStart(clock, b.period);
    Row(p.id, p.name, start, start, "tokens", 1000.0, c, None, None, None, map["source" := "opord_gateway_lite"])
  }

  /** The provider has no imported figure in the period. */
  predicate Unsuperseded(b: Budget, clock: Clock, usage: seq<Row>, p: string) {
    ToLower(p) !in Superseded(usage, PeriodStart(clock, b.period), OfBudget(b))
  }

  lemma DearestIsGatewayRow(b: Budget, clock: Clock, c: real, p: Provider)
    requires c >= 0.0
    ensures GatewayRow(c, p, DearestRow(b, clock, c, p))
  {
    hide TrimSpace, ToLower, PeriodStart;
    PlainText("opord_gateway_lite");
    var u := DearestRow(b, clock, c, p);
    assert "source" in u.raw && u.raw["source"] == "opord_gateway_lite";
  }

  lemma DearestCounts(b: Budget, clock: Clock, c: real, p: Provider, usage: seq<Row>)
    requires WatchedBudget(b) && c >= 0.0 && (CoveredBy(b, p.name) || CountsById(b, p)) && Unsuperseded(b, clock, usage, p.name)
    ensures var more := usage + [DearestRow(b, clock, c, p)];
            BudgetActual(b, more, clock) == BudgetActual(b, usage, clock) + c && Unsuperseded(b, clock, more, p.name)
  {
    hide ScopeMatches, Source, CoveredBy, CountsById, WatchedBudget, Superseded, RowsOf, Cost, GatewayRow;
    var u, start := DearestRow(b, clock, c, p), PeriodStart(clock, b.period);
    DearestIsGatewayRow(b, clock, c, p);
    CoveredIffCounted(b, c, p, u);
    assert Estimate(u) by { GatewayRowIsEstimate(c, p, u); }
    if Authoritative(u) { AuthoritativeIsNoEstimate(u); }
    SupersededAppend(usage, u, start, OfBudget(b));
    EstimateAdds(usage, u, start, OfBudget(b));
  }

  lemma GatewayRowIsEstimate(c: real, p: Provider, u: Row)
    requires GatewayRow(c, p, u)
    ensures Estimate(u)
  {
  }

  lemma EstimateAdds(usage: seq<Row>, u: Row, start: int, sc: Scope)
    requires Counts(u, start, sc) && !Authoritative(u) && ProviderKey(u) !in Superseded(usage, start, sc)
    ensures Cost(usage + [u], start, sc) == Cost(usage, start, sc) + u.cost
  {
    hide ScopeMatches, Source, ProviderKey, Superseded;
    SupersededAppend(usage, u, start, sc);
    assert Superseded(usage + [u], start, sc) == Superseded(usage, start, sc);
    TotalAppend(usage, u, start, sc, Superseded(usage, start, sc));
  }

  lemma {:induction false} ManyGates(b: Budget, clock: Clock, c: real, k: nat, usage: seq<Row>, p: Provider, n: nat)
    returns (steps: seq<Step>)
    requires WatchedBudget(b) && (BudgetActual(b, usage, clock) < Threshold(b) || !CoveredBy(b, p.name)) && n <= k
    ensures IsRun(b, clock, c, k, State(usage, Waiting(0, p), {p}), steps)
    ensures Exec(b, clock, c, k, State(usage, Waiting(0, p), {p}), steps) == State(usage, Waiting(n, p), {p})
  {
    hide GatewayBlocked, InFlight, BudgetActual, Threshold, WatchedBudget, CoveredBy;
    WaitingInFlight(b, usage, n, p);
    if n == 0 {
      steps := [];
    } else {
      var before := ManyGates(b, clock, c, k, usage, p, n - 1);
      var s := State(usage, Waiting(n - 1, p), {p});
      var g := Gate(n - 1, p, OnlyBudget(b, usage, clock));
      OpensWhen(b, usage, clock, p.name);
      WaitingInFlight(b, usage, n - 1, p);
      assert Enabled(b, clock, c, s, g);
      assert Apply(b, clock, c, s, g) == State(usage, Waiting(n, p), {p});
      assert [g][1..] == [];
      RunConcat(b, clock, c, k, State(usage, Waiting(0, p), {p}), before, [g]);
      steps := before + [g];
    }
  }

  lemma {:induction false} ManyRecords(b: Budget, clock: Clock, c: real, k: nat, usage: seq<Row>, p: Provider, n: nat)
    returns (steps: seq<Step>, end: seq<Row>)
    requires WatchedBudget(b) && (CoveredBy(b, p.name) || CountsById(b, p)) && c >= 0.0
    requires Unsuperseded(b, clock, usage, p.name) && n <= k
    ensures IsRun(b, clock, c, k, State(usage, Waiting(n, p), {p}), steps)
    ensures Exec(b, clock, c, k, State(usage, Waiting(n, p), {p}), steps) == State(end, Waiting(0, p), {p})
    ensures BudgetActual(b, end, clock) == BudgetActual(b, usage, clock) + Times(n, c) && Unsuperseded(b, clock, end, p.name)
    decreases n
  {
    hide InFlight, BudgetActual, WatchedBudget, CoveredBy, CountsById, Unsuperseded, DearestRow, GatewayRow;
    WaitingInFlight(b, usage, n, p);
    if n == 0 {
      steps, end := [], usage;
    } else {
      var s, u := State(usage, Waiting(n, p), {p}), DearestRow(b, clock, c, p);
      var f := Record(n - 1, u);
      DearestIsGatewayRow(b, clock, c, p);
      DearestCounts(b, clock, c, p, usage);
      assert Waiting(n, p) - {n - 1} == Waiting(n - 1, p);
      assert Enabled(b, clock, c, s, f);
      assert Apply(b, clock, c, s, f) == State(usage + [u], Waiting(n - 1, p), {p});
      var rest;
      rest, end := ManyRecords(b, clock, c, k, usage + [u], p, n - 1);
      steps := [f] + rest;
      assert steps[1..] == rest;
    }
  }

  /** n calls pass the gate and then complete at the largest cost. */
  lemma Burst(b: Budget, clock: Clock, c: real, k: nat, usage: seq<Row>, p: Provider, n: nat)
    returns (steps: seq<Step>, end: seq<Row>)
    requires WatchedBudget(b) && (CoveredBy(b, p.name) || CountsById(b, p)) && c >= 0.0
    requires Unsuperseded(b, clock, usage, p.name) && n <= k
    requires BudgetActual(b, usage, clock) < Threshold(b) || !CoveredBy(b, p.name)
    ensures IsRun(b, clock, c, k, State(usage, map[], {p}), steps)
    ensures Exec(b, clock, c, k, State(usage, map[], {p}), steps) == State(end, map[], {p})
    ensures BudgetActual(b, end, clock) == BudgetActual(b, usage, clock) + Times(n, c) && Unsuperseded(b, clock, end, p.name)
  {
    hide InFlight, WatchedBudget, CoveredBy, CountsById, BudgetActual, Threshold, IsRun, Exec, Unsuperseded;
    assert Waiting(0, p) == map[];
    var gates := ManyGates(b, clock, c, k, usage, p, n);
    var records;
    records, end := ManyRecords(b, clock, c, k, usage, p, n);
    RunConcat(b, clock, c, k, State(usage, Waiting(0, p), {p}), gates, records);
    steps := gates + records;
  }

  /** No smaller bound holds: from any spend below the threshold, of a provider with no imported
      figure, k calls let through together add k * c. */
  lemma OverspendReached(b: Budget, clock: Clock, c: real, k: nat, usage: seq<Row>, p: Provider) returns (steps: seq<Step>)
    requires WatchedBudget(b) && CoveredBy(b, p.name) && c >= 0.0 && Unsuperseded(b, clock, usage, p.name)
    requires BudgetActual(b, usage, clock) < Threshold(b)
    ensures IsRun(b, clock, c, k, State(usage, map[], {p}), steps)
    ensures Actual(b, clock, Exec(b, clock, c, k, State(usage, map[], {p}), steps))
         == BudgetActual(b, usage, clock) + k as real * c
  {
    hide InFlight, WatchedBudget, CoveredBy, BudgetActual, Threshold, IsRun, Exec, Unsuperseded;
    var end;
    steps, end := Burst(b, clock, c, k, usage, p, k);
    TimesIsProduct(k, c);
  }

  /** One after another, n calls of a provider that the gate does not cover. */
  lemma {:induction false} OneByOne(b: Budget, clock: Clock, c: real, usage: seq<Row>, p: Provider, n: nat)
    returns (steps: seq<Step>, end: seq<Row>)
    requires WatchedBudget(b) && CountsById(b, p) && !CoveredBy(b, p.name) && c >= 0.0 && Unsuperseded(b, clock, usage, p.name)
    ensures IsRun(b, clock, c, 1, State(usage, map[], {p}), steps)
    ensures Exec(b, clock, c, 1, State(usage, map[], {p}), steps) == State(end, map[], {p})
    ensures BudgetActual(b, end, clock) == BudgetActual(b, usage, clock) + Times(n, c) && Unsuperseded(b, clock, end, p.name)
  {
    hide InFlight, WatchedBudget, CoveredBy, CountsById, BudgetActual, Threshold, Exec, Unsuperseded, Enabled, Apply;
    if n == 0 {
      assert InFlight(b, State(usage, map[], {p})) == 0 by {
        WaitingInFlight(b, usage, 0, p);
        assert Waiting(0, p) == map[];
      }
      steps, end := [], usage;
      assert Exec(b, clock, c, 1, State(usage, map[], {p}), []) == State(usage, map[], {p}) by { NoSteps(b, clock, c, usage, p); }
    } else {
      var before, rows := OneByOne(b, clock, c, usage, p, n - 1);
      var more;
      more, end := Burst(b, clock, c, 1, rows, p, 1);
      RunConcat(b, clock, c, 1, State(usage, map[], {p}), before, more);
      steps := before + more;
      assert Times(1, c) == c;
    }
  }

  lemma NoSteps(b: Budget, clock: Clock, c: real, usage: seq<Row>, p: Provider)
    requires IsRun(b, clock, c, 1, State(usage, map[], {p}), [])
    ensures Exec(b, clock, c, 1, State(usage, map[], {p}), []) == State(usage, map[], {p})
  {
  }

  lemma NotCovered(b: Budget, p: Provider)
    requires CountsById(b, p)
    ensures !CoveredBy(b, p.name)
  {
    hide TrimSpace, ToLower;
  }

  /** For a budget that refers to a provider by id there is no bound at all: it counts the provider's
      calls and never gates them, so even one call at a time exceeds any amount x. */
  lemma ByIdUnbounded(b: Budget, clock: Clock, c: real, usage: seq<Row>, p: Provider, x: real) returns (steps: seq<Step>)
    requires WatchedBudget(b) && CountsById(b, p) && c > 0.0 && Unsuperseded(b, clock, usage, p.name)
    ensures IsRun(b, clock, c, 1, State(usage, map[], {p}), steps)
    ensures Actual(b, clock, Exec(b, clock, c, 1, State(usage, map[], {p}), steps)) > x
  {
    hide InFlight, WatchedBudget, CoveredBy, CountsById, BudgetActual, IsRun, Exec, Unsuperseded;
    NotCovered(b, p);
    var n := Enough(x - BudgetActual(b, usage, clock), c);
    TimesIsProduct(n, c);
    var end;
    steps, end := OneByOne(b, clock, c, usage, p, n);
  }

  lemma Enough(x: real, c: real) returns (n: nat)
    requires c > 0.0
    ensures n as real * c > x
  {
    var q := x / c;
    assert q * c == x;
    n := if q < 0.0 then 1 else q.Floor + 1;
    assert (n as real - q) * c > 0.0;
  }
}

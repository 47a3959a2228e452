/** When the budgets of one period add up to the whole spend: every row that costs something is
    counted once, and supersession sees the same rows on both sides. */
module Conservation {
  import opened Sequences
  import opened Strings
  import opened Usage
  import opened Wrappers

  function ActualSum(bs: seq<Budget>, usage: seq<Row>, clock: Clock): real {
    if bs == [] then 0.0
    else ActualSum(bs[..|bs|-1], usage, clock) + BudgetActual(bs[|bs|-1], usage, clock)
  }

  predicate OnePeriod(bs: seq<Budget>, clock: Clock, start: int) {
    forall b :: b in bs ==> PeriodStart(clock, b.period) == start
  }

  /** How many of the budgets count a row. */
  function Matching(bs: seq<Budget>, u: Row): nat {
    if bs == [] then 0 else Matching(bs[..|bs|-1], u) + if ScopeMatches(bs[|bs|-1], u) then 1 else 0
  }

  // ------------------------------------------- the condition, row by row

  predicate Billed(u: Row, start: int) {
    u.periodStart >= start && u.cost != 0.0
  }

  /** Every row of the period that costs something is counted by exactly one budget. */
  predicate CountedOnce(bs: seq<Budget>, usage: seq<Row>, start: int) {
    forall u :: u in usage && Billed(u, start) ==> Matching(bs, u) == 1
  }

  /** An estimate v of the period, and an imported figure u that supersedes it. */
  predicate Supersedes(u: Row, v: Row, start: int) {
    && Authoritative(u) && u.periodStart >= start
    && Estimate(v) && Billed(v, start) && ProviderKey(u) == ProviderKey(v)
  }

  /** A budget that counts an estimate also counts every imported figure that supersedes it. */
  predicate ImportsFollow(bs: seq<Budget>, usage: seq<Row>, start: int) {
    forall u, v, b :: u in usage && v in usage && b in bs && Supersedes(u, v, start) && ScopeMatches(b, v)
      ==> ScopeMatches(b, u)
  }

  // ------------------------------------------------- summing row by row

  /** What the budgets together count for row u, with supersession as the table has it. */
  function RowShare(bs: seq<Budget>, u: Row, table: seq<Row>, start: int): real {
    if bs == [] then 0.0
    else
      var b := bs[|bs|-1];
      RowShare(bs[..|bs|-1], u, table, start) + Amount(u, start, OfBudget(b), Superseded(table, start, OfBudget(b)))
  }

  function BudgetTotals(bs: seq<Budget>, rows: seq<Row>, table: seq<Row>, start: int): real {
    if bs == [] then 0.0
    else
      var b := bs[|bs|-1];
      BudgetTotals(bs[..|bs|-1], rows, table, start) + Total(rows, start, OfBudget(b), Superseded(table, start, OfBudget(b)))
  }

  lemma {:induction false} TotalsAppend(bs: seq<Budget>, rows: seq<Row>, u: Row, table: seq<Row>, start: int)
    ensures BudgetTotals(bs, [], table, start) == 0.0
    ensures BudgetTotals(bs, rows + [u], table, start) == BudgetTotals(bs, rows, table, start) + RowShare(bs, u, table, start)
  {
    hide Amount, Superseded;
    if bs != [] {
      var b := bs[|bs|-1];
      TotalsAppend(bs[..|bs|-1], rows, u, table, start);
      TotalAppend(rows, u, start, OfBudget(b), Superseded(table, start, OfBudget(b)));
    }
  }

  lemma {:induction false} SumIsTotals(bs: seq<Budget>, usage: seq<Row>, clock: Clock, start: int)
    requires OnePeriod(bs, clock, start)
    ensures ActualSum(bs, usage, clock) == BudgetTotals(bs, usage, usage, start)
  {
    hide Total, Superseded;
    if bs != [] {
      assert bs[|bs|-1] in bs;
      SumIsTotals(bs[..|bs|-1], usage, clock, start);
    }
  }

  /** If all the budgets that count a row count the same amount for it, they share that many times it. */
  lemma {:induction false} EqualShares(bs: seq<Budget>, u: Row, table: seq<Row>, start: int, x: real)
    requires forall b :: b in bs && ScopeMatches(b, u) ==> Amount(u, start, OfBudget(b), Superseded(table, start, OfBudget(b))) == x
    ensures RowShare(bs, u, table, start) == Matching(bs, u) as real * x
  {
    hide ScopeMatches, Superseded, Source, ProviderKey;
    if bs != [] {
      var init, b := bs[..|bs|-1], bs[|bs|-1];
      assert b in bs && forall c :: c in init ==> c in bs;
      EqualShares(init, u, table, start, x);
      Distribute(Matching(init, u), x);
    }
  }

  lemma InSuperseded(p: string, table: seq<Row>, start: int, sc: Scope)
    ensures p in Superseded(table, start, sc)
       <==> exists u :: u in table && Counts(u, start, sc) && Authoritative(u) && ProviderKey(u) == p
  {
  }

  /** Under the condition, a row counts for as much in the budgets as in the whole. */
  lemma RowConserved(bs: seq<Budget>, usage: seq<Row>, v: Row, start: int)
    requires CountedOnce(bs, usage, start) && ImportsFollow(bs, usage, start) && v in usage
    ensures RowShare(bs, v, usage, start) == Amount(v, start, Everything, Superseded(usage, start, Everything))
  {
    hide ScopeMatches, Source, ProviderKey, Matching, RowShare, Superseded;
    var x := Amount(v, start, Everything, Superseded(usage, start, Everything));
    forall b | b in bs && ScopeMatches(b, v)
      ensures Amount(v, start, OfBudget(b), Superseded(usage, start, OfBudget(b))) == x
    {
      SameFate(bs, usage, v, b, start);
    }
    EqualShares(bs, v, usage, start, x);
  }

  lemma SameFate(bs: seq<Budget>, usage: seq<Row>, v: Row, b: Budget, start: int)
    requires ImportsFollow(bs, usage, start) && v in usage && b in bs && ScopeMatches(b, v)
    ensures Amount(v, start, OfBudget(b), Superseded(usage, start, OfBudget(b)))
         == Amount(v, start, Everything, Superseded(usage, start, Everything))
  {
    hide ScopeMatches, Source, ProviderKey, Superseded;
    var p := ProviderKey(v);
    InSuperseded(p, usage, start, OfBudget(b));
    InSuperseded(p, usage, start, Everything);
    if Estimate(v) && Billed(v, start) && p in Superseded(usage, start, Everything) {
      var u :| u in usage && Counts(u, start, Everything) && Authoritative(u) && ProviderKey(u) == p;
      assert Supersedes(u, v, start);
    }
  }

  lemma {:induction false} RowsConserved(bs: seq<Budget>, usage: seq<Row>, start: int, n: nat)
    requires CountedOnce(bs, usage, start) && ImportsFollow(bs, usage, start) && n <= |usage|
    ensures BudgetTotals(bs, usage[..n], usage, start)
         == Total(usage[..n], start, Everything, Superseded(usage, start, Everything))
  {
    hide ScopeMatches, CountedOnce, ImportsFollow, Superseded, RowShare, Amount, Total, BudgetTotals;
    var sup := Superseded(usage, start, Everything);
    if n == 0 {
      assert usage[..0] == [];
      TotalsAppend(bs, [], Row("", "", 0, 0, "", 0.0, 0.0, None, None, None, map[]), usage, start);
      TotalAppend([], Row("", "", 0, 0, "", 0.0, 0.0, None, None, None, map[]), start, Everything, sup);
    } else {
      var v := usage[n-1];
      RowsConserved(bs, usage, start, n - 1);
      assert usage[..n] == usage[..n-1] + [v];
      TotalsAppend(bs, usage[..n-1], v, usage, start);
      TotalAppend(usage[..n-1], v, start, Everything, sup);
      RowConserved(bs, usage, v, start);
    }
  }

  lemma Sufficient(bs: seq<Budget>, usage: seq<Row>, clock: Clock, start: int)
    requires OnePeriod(bs, clock, start) && CountedOnce(bs, usage, start) && ImportsFollow(bs, usage, start)
    ensures ActualSum(bs, usage, clock) == Cost(usage, start, Everything)
  {
    hide CountedOnce, ImportsFollow;
    SumIsTotals(bs, usage, clock, start);
    RowsConserved(bs, usage, start, |usage|);
    assert usage[..|usage|] == usage;
  }

  // ------------------------------------------------- tables of one and two rows

  lemma OneRowTables(bs: seq<Budget>, u: Row, clock: Clock, start: int)
    requires OnePeriod(bs, clock, start)
    ensures ActualSum(bs, [u], clock) == RowShare(bs, u, [u], start)
    ensures Cost([u], start, Everything) == Amount(u, start, Everything, Superseded([u], start, Everything))
  {
    hide Amount, Superseded, RowShare, BudgetTotals, Total;
    SumIsTotals(bs, [u], clock, start);
    assert [] + [u] == [u];
    TotalsAppend(bs, [], u, [u], start);
    TotalAppend([], u, start, Everything, Superseded([u], start, Everything));
  }

  lemma TwoRowTables(bs: seq<Budget>, u: Row, v: Row, clock: Clock, start: int)
    requires OnePeriod(bs, clock, start)
    ensures ActualSum(bs, [u, v], clock) == RowShare(bs, u, [u, v], start) + RowShare(bs, v, [u, v], start)
    ensures var sup := Superseded([u, v], start, Everything);
            Cost([u, v], start, Everything) == Amount(u, start, Everything, sup) + Amount(v, start, Everything, sup)
  {
    hide Amount, Superseded, RowShare, BudgetTotals, Total;
    SumIsTotals(bs, [u, v], clock, start);
    assert [] + [u] == [u] && [u] + [v] == [u, v];
    TotalsAppend(bs, [], u, [u, v], start);
    TotalsAppend(bs, [u], v, [u, v], start);
    TotalAppend([], u, start, Everything, Superseded([u, v], start, Everything));
    TotalAppend([u], v, start, Everything, Superseded([u, v], start, Everything));
  }

  lemma Cancel(n: real, c: real)
    requires c != 0.0
    ensures n * c == c <==> n == 1.0
  {
    if n * c == c {
      assert (n - 1.0) * c == 0.0;
    }
  }

  /** A row that never falls to supersession counts in full wherever it counts. */
  lemma FullShare(bs: seq<Budget>, u: Row, table: seq<Row>, start: int)
    requires u.periodStart >= start
    requires !Estimate(u) || forall w :: w in table ==> !Authoritative(w)
    ensures RowShare(bs, u, table, start) == Matching(bs, u) as real * u.cost
    ensures Amount(u, start, Everything, Superseded(table, start, Everything)) == u.cost
  {
    hide ScopeMatches, Source, ProviderKey, RowShare, Matching;
    EqualShares(bs, u, table, start, u.cost);
  }

  /** On a table of one row that costs something, the budgets add up to the whole exactly when
      exactly one of them counts the row. */
  lemma ConservationNeedsOneMatch(bs: seq<Budget>, u: Row, clock: Clock, start: int)
    requires Billed(u, start) && OnePeriod(bs, clock, start)
    ensures ActualSum(bs, [u], clock) == Cost([u], start, Everything) <==> Matching(bs, u) == 1
  {
    hide ScopeMatches, Matching, RowShare, Amount, ActualSum, Cost, Source;
    OneRowTables(bs, u, clock, start);
    if Authoritative(u) { AuthoritativeIsNoEstimate(u); }
    FullShare(bs, u, [u], start);
    Cancel(Matching(bs, u) as real, u.cost);
  }

  lemma {:induction false} MatchingAtLeast(bs: seq<Budget>, i: nat, u: Row)
    requires i < |bs| && ScopeMatches(bs[i], u)
    ensures Matching(bs, u) >= 1
    ensures forall j :: 0 <= j < |bs| && j != i && ScopeMatches(bs[j], u) ==> Matching(bs, u) >= 2
  {
    hide ScopeMatches;
    var n := |bs| - 1;
    if i < n {
      MatchingAtLeast(bs[..n], i, u);
      assert forall j :: 0 <= j < n ==> bs[..n][j] == bs[j];
    } else {
      forall j | 0 <= j < n && ScopeMatches(bs[j], u) ensures Matching(bs, u) >= 2 {
        MatchingAtLeast(bs[..n], j, u);
      }
    }
  }

  lemma OnlyMatch(bs: seq<Budget>, u: Row, a: Budget, b: Budget)
    requires Matching(bs, u) == 1 && a in bs && b in bs && ScopeMatches(a, u) && ScopeMatches(b, u)
    ensures a == b
  {
    hide ScopeMatches, Matching;
    var i :| 0 <= i < |bs| && bs[i] == a;
    MatchingAtLeast(bs, i, u);
  }

  /** On a table of an estimate and a figure that supersedes it, both counted once: the sum is right
      exactly when the budget that counts the estimate counts the figure. */
  lemma PairConserved(bs: seq<Budget>, u: Row, v: Row, b: Budget, clock: Clock, start: int)
    requires OnePeriod(bs, clock, start) && Supersedes(u, v, start)
    requires Matching(bs, v) == 1 && (u.cost != 0.0 ==> Matching(bs, u) == 1)
    requires b in bs && ScopeMatches(b, v)
    ensures ActualSum(bs, [u, v], clock) == Cost([u, v], start, Everything) <==> ScopeMatches(b, u)
  {
    hide ScopeMatches, Source, Matching, RowShare, Superseded, ActualSum, Cost, ProviderKey;
    var table := [u, v];
    TwoRowTables(bs, u, v, clock, start);
    AuthoritativeIsNoEstimate(u);
    FullShare(bs, u, table, start);
    assert RowShare(bs, u, table, start) == u.cost;
    InSuperseded(ProviderKey(v), table, start, Everything);
    InSuperseded(ProviderKey(v), table, start, OfBudget(b));
    assert u in table;
    assert Amount(v, start, Everything, Superseded(table, start, Everything)) == 0.0;
    var x := Amount(v, start, OfBudget(b), Superseded(table, start, OfBudget(b)));
    assert x == if ScopeMatches(b, u) then 0.0 else v.cost by {
      if Authoritative(v) { AuthoritativeIsNoEstimate(v); }
    }
    forall a | a in bs && ScopeMatches(a, v) ensures Amount(v, start, OfBudget(a), Superseded(table, start, OfBudget(a))) == x {
      OnlyMatch(bs, v, a, b);
    }
    EqualShares(bs, v, table, start, x);
  }

  // ------------------------------------------------------ the exact condition

  ghost predicate SubtablesConserved(bs: seq<Budget>, usage: seq<Row>, clock: Clock, start: int) {
    forall t :: multiset(t) <= multiset(usage) ==> ActualSum(bs, t, clock) == Cost(t, start, Everything)
  }

  lemma Necessary(bs: seq<Budget>, usage: seq<Row>, clock: Clock, start: int)
    requires OnePeriod(bs, clock, start) && SubtablesConserved(bs, usage, clock, start)
    ensures CountedOnce(bs, usage, start) && ImportsFollow(bs, usage, start)
  {
    hide ScopeMatches, Source, Matching, ActualSum, Cost, ProviderKey;
    forall u | u in usage && Billed(u, start) ensures Matching(bs, u) == 1 {
      assert multiset([u]) <= multiset(usage);
      ConservationNeedsOneMatch(bs, u, clock, start);
    }
    forall u, v, b | u in usage && v in usage && b in bs && Supersedes(u, v, start) && ScopeMatches(b, v)
      ensures ScopeMatches(b, u)
    {
      AuthoritativeIsNoEstimate(u);
      assert multiset([u, v]) <= multiset(usage);
      PairConserved(bs, u, v, b, clock, start);
    }
  }

  /** The budgets of one period add up to the whole spend on a table and on every part of it exactly
      when each row that costs something is counted by exactly one of them, and the one that counts
      an estimate also counts the imported figures that supersede it. */
  lemma ConservedExactly(bs: seq<Budget>, usage: seq<Row>, clock: Clock, start: int)
    requires OnePeriod(bs, clock, start)
    ensures SubtablesConserved(bs, usage, clock, start) <==> CountedOnce(bs, usage, start) && ImportsFollow(bs, usage, start)
  {
    hide SubtablesConserved, CountedOnce, ImportsFollow, ActualSum, Cost;
    if SubtablesConserved(bs, usage, clock, start) {
      Necessary(bs, usage, clock, start);
    }
    if CountedOnce(bs, usage, start) && ImportsFollow(bs, usage, start) {
      forall t | multiset(t) <= multiset(usage) ensures ActualSum(bs, t, clock) == Cost(t, start, Everything) {
        PartMeets(bs, usage, t, start);
        Sufficient(bs, t, clock, start);
      }
      AllParts(bs, usage, clock, start);
    }
  }

  lemma PartMeets(bs: seq<Budget>, usage: seq<Row>, t: seq<Row>, start: int)
    requires multiset(t) <= multiset(usage) && CountedOnce(bs, usage, start) && ImportsFollow(bs, usage, start)
    ensures CountedOnce(bs, t, start) && ImportsFollow(bs, t, start)
  {
    hide ScopeMatches, Matching, Supersedes, Billed;
    forall u | u in t ensures u in usage {
      assert u in multiset(t);
    }
  }

  lemma AllParts(bs: seq<Budget>, usage: seq<Row>, clock: Clock, start: int)
    requires forall t :: multiset(t) <= multiset(usage) ==> ActualSum(bs, t, clock) == Cost(t, start, Everything)
    ensures SubtablesConserved(bs, usage, clock, start)
  {
  }

  // -------------------------------------------- global budgets and cost quotas

  lemma GlobalActual(global: Budget, usage: seq<Row>, clock: Clock, metric: string)
    requires ScopeOf(global) == "global" || ScopeOf(global) == ""
    requires metric == "cost" || metric == "cost_usd"
    ensures BudgetActual(global, usage, clock) == Cost(usage, PeriodStart(clock, global.period), Everything)
         == QuotaUsage(metric, global.period, usage, clock)
  {
    var start := PeriodStart(clock, global.period);
    SameTotal(usage, start, global, Superseded(usage, start, Everything));
    assert Superseded(usage, start, OfBudget(global)) == Superseded(usage, start, Everything);
  }

  lemma {:induction false} SameTotal(usage: seq<Row>, start: int, global: Budget, sup: set<string>)
    requires ScopeOf(global) == "global" || ScopeOf(global) == ""
    ensures Total(usage, start, OfBudget(global), sup) == Total(usage, start, Everything, sup)
  {
    if usage != [] {
      SameTotal(usage[..|usage|-1], start, global, sup);
    }
  }

  // ------------------------------------------------------- provider budgets

  predicate NamesProvider(b: Budget) {
    ScopeOf(b) == "provider" && TrimSpace(b.scopeRef) != ""
  }

  function RefKey(b: Budget): string {
    ToLower(TrimSpace(b.scopeRef))
  }

  function RefKeys(bs: seq<Budget>): (keys: seq<string>)
    ensures |keys| == |bs| && forall i :: 0 <= i < |bs| ==> keys[i] == RefKey(bs[i])
  {
    seq(|bs|, i requires 0 <= i < |bs| => RefKey(bs[i]))
  }

  /** The row is not counted by its provider's id alone. */
  predicate RefIsName(b: Budget, u: Row) {
    u.providerId == TrimSpace(b.scopeRef) ==> EqualFold(u.providerName, TrimSpace(b.scopeRef))
  }

  lemma ByName(b: Budget, u: Row)
    requires NamesProvider(b)
    ensures RefIsName(b, u) <==> (ScopeMatches(b, u) <==> ProviderKey(u) == RefKey(b))
  {
  }

  lemma {:induction false} MatchingByName(bs: seq<Budget>, u: Row)
    requires forall b :: b in bs ==> NamesProvider(b) && RefIsName(b, u)
    requires Distinct(RefKeys(bs))
    ensures Matching(bs, u) == if ProviderKey(u) in RefKeys(bs) then 1 else 0
  {
    hide ScopeMatches, NamesProvider, RefKey, RefIsName, ProviderKey;
    if bs != [] {
      var init, b := bs[..|bs|-1], bs[|bs|-1];
      assert b in bs && forall c :: c in init ==> c in bs;
      assert RefKeys(bs) == RefKeys(init) + [RefKey(b)];
      MatchingByName(init, u);
      ByName(b, u);
    }
  }

  /** Budgets for each provider by name, one per distinct name, add up to the global budget of the
      same period, which is also what a cost quota of that period counts. */
  lemma SpendConserved(bs: seq<Budget>, global: Budget, usage: seq<Row>, clock: Clock, metric: string)
    requires ScopeOf(global) == "global" || ScopeOf(global) == ""
    requires metric == "cost" || metric == "cost_usd"
    requires OnePeriod(bs, clock, PeriodStart(clock, global.period))
    requires forall b :: b in bs ==> NamesProvider(b)
    requires Distinct(RefKeys(bs))
    requires forall u :: u in usage && u.periodStart >= PeriodStart(clock, global.period) ==> ProviderKey(u) in RefKeys(bs)
    requires forall b, u :: b in bs && u in usage ==> RefIsName(b, u)
    ensures ActualSum(bs, usage, clock) == BudgetActual(global, usage, clock) == QuotaUsage(metric, global.period, usage, clock)
  {
    hide ScopeMatches, NamesProvider, RefKey, RefIsName, ProviderKey, Matching, ActualSum, BudgetActual, QuotaUsage, Source;
    var start := PeriodStart(clock, global.period);
    forall u | u in usage && Billed(u, start) ensures Matching(bs, u) == 1 {
      MatchingByName(bs, u);
    }
    forall u, v, b | u in usage && v in usage && b in bs && Supersedes(u, v, start) && ScopeMatches(b, v)
      ensures ScopeMatches(b, u)
    {
      ByName(b, u);
      ByName(b, v);
    }
    Sufficient(bs, usage, clock, start);
    GlobalActual(global, usage, clock, metric);
  }

  /** The budget counts the rows of the provider with lowercase name p and no others, whether its
      reference is the provider's name or its id. */
  predicate Picks(b: Budget, p: string, usage: seq<Row>) {
    forall u :: u in usage ==> (ScopeMatches(b, u) <==> ProviderKey(u) == p)
  }

  /** Such a budget's spend is that provider's share of the whole. */
  lemma ProviderBudgetActual(b: Budget, p: string, usage: seq<Row>, clock: Clock)
    requires Picks(b, p, usage)
    ensures BudgetActual(b, usage, clock) == ProviderSpend(usage, PeriodStart(clock, b.period), Everything, p)
  {
    hide ScopeMatches, ProviderKey;
    var start := PeriodStart(clock, b.period);
    SameRows(usage, start, b, p);
    CostByProvider(usage, start, OfBudget(b), [p]);
    assert [p][..0] == [];
  }

  lemma {:induction false} SameRows(usage: seq<Row>, start: int, b: Budget, p: string)
    requires Picks(b, p, usage)
    ensures RowsOf(usage, start, OfBudget(b), p) == RowsOf(usage, start, Everything, p)
  {
    hide ScopeMatches, ProviderKey;
    if usage != [] {
      assert usage[|usage|-1] in usage;
      SameRows(usage[..|usage|-1], start, b, p);
    }
  }

  // ------------------------------------------------------------ two failures

  lemma PlainProviderBudget(b: Budget)
    requires b.scope == "provider" && b.scopeRef != ""
    requires forall i :: 0 <= i < |b.scopeRef| ==> !('A' <= b.scopeRef[i] <= 'Z')
    requires !IsSpace(b.scopeRef[0]) && !IsSpace(b.scopeRef[|b.scopeRef|-1])
    ensures NamesProvider(b) && TrimSpace(b.scopeRef) == RefKey(b) == b.scopeRef
  {
    hide TrimSpace, ToLower;
    PlainText("provider");
    PlainText(b.scopeRef);
  }

  /** What a plain provider budget counts: the provider of that name, and the provider of that id. */
  lemma PlainCounts(b: Budget, u: Row)
    requires NamesProvider(b) && TrimSpace(b.scopeRef) == RefKey(b) == b.scopeRef
    ensures ScopeMatches(b, u) <==> ProviderKey(u) == b.scopeRef || u.providerId == b.scopeRef
  {
  }

  const ID1 := "6f1c2a4e-0d3b-4c5f-8a7e-1b2c3d4e5f60"
  const ID2 := "9b8a7c6d-5e4f-4a3b-9c2d-1e0f2a3b4c5d"

  function MonthlyBudget(ref: string): Budget {
    Budget("provider", ref, 10.0, "monthly", 80, 100)
  }

  lemma TwoBudgets(a: Budget, b: Budget, u: Row)
    ensures Matching([a, b], u) == (if ScopeMatches(a, u) then 1 else 0) + (if ScopeMatches(b, u) then 1 else 0)
  {
    hide ScopeMatches;
    assert Matching([], u) == 0;
    assert [a][..0] == [] && [a, b][..1] == [a];
    assert Matching([a], u) == if ScopeMatches(a, u) then 1 else 0;
  }

  /** Concretely: a budget by a provider's name and one by the same provider's id both count its
      rows, so their sum is twice the spend. */
  lemma NameAndIdCountTwice(clock: Clock) returns (bs: seq<Budget>, u: Row)
    ensures |bs| == 2 && (forall b :: b in bs ==> NamesProvider(b)) && Distinct(RefKeys(bs))
    ensures OnePeriod(bs, clock, clock.month) && Matching(bs, u) == 2
    ensures ActualSum(bs, [u], clock) != Cost([u], clock.month, Everything)
  {
    hide ScopeMatches, ScopeOf, NamesProvider, RefKey, TrimSpace, ToLower, PeriodStart, ActualSum, Cost, Matching;
    u := Row(ID1, "alpha", clock.month, clock.month, "cost_usd", 5.0, 5.0, None, None, None, map[]);
    var a, b := MonthlyBudget("alpha"), MonthlyBudget(ID1);
    PlainProviderBudget(a);
    IdBudget(ID1);
    PlainText("alpha");
    Monthly(clock);
    PlainCounts(a, u);
    PlainCounts(b, u);
    TwoBudgets(a, b, u);
    bs := [a, b];
    assert RefKeys(bs)[0] == "alpha" && RefKeys(bs)[1] == ID1;
    ConservationNeedsOneMatch(bs, u, clock, clock.month);
  }

  lemma Monthly(clock: Clock)
    ensures PeriodStart(clock, "monthly") == clock.month
  {
    hide TrimSpace, ToLower;
    PlainText("monthly");
    assert |"daily"| == 5 && |"yearly"| == 6 && |"annual"| == 6 && |"monthly"| == 7;
  }

  function ImportedRow(clock: Clock): Row {
    Row(ID1, "OpenAI", clock.month, clock.month, "cost_usd", 7.0, 7.0, None, None, None, map["source" := "openai_costs_api"])
  }

  function EstimatedRow(clock: Clock): Row {
    Row(ID2, "openai", clock.month, clock.month, "tokens", 100.0, 5.0, None, None, None, map["source" := "opord_gateway_lite"])
  }

  lemma ImportedSupersedes(clock: Clock)
    ensures Supersedes(ImportedRow(clock), EstimatedRow(clock), clock.month)
  {
    hide TrimSpace, ToLower;
    PlainText("openai_costs_api");
    PlainText("opord_gateway_lite");
    OneSpelling();
  }

  lemma IdBudget(id: string)
    requires id == ID1 || id == ID2
    ensures var b := MonthlyBudget(id);
            NamesProvider(b) && TrimSpace(b.scopeRef) == RefKey(b) == id
    ensures |id| == 36 && (id == ID1 <==> id[0] == '6')
  {
    hide NamesProvider, RefKey, TrimSpace;
    PlainProviderBudget(MonthlyBudget(id));
  }

  lemma DifferentIds()
    ensures ID1 != ID2
  {
    assert ID1[0] != ID2[0];
  }

  lemma OneMatchEach(a: Budget, b: Budget, clock: Clock)
    requires a == MonthlyBudget(ID1) && b == MonthlyBudget(ID2)
    ensures ID1 != ID2
    ensures NamesProvider(a) && NamesProvider(b) && RefKey(a) == ID1 && RefKey(b) == ID2
    ensures var u, v := ImportedRow(clock), EstimatedRow(clock);
            ScopeMatches(a, u) && !ScopeMatches(b, u) && !ScopeMatches(a, v) && ScopeMatches(b, v)
  {
    hide ScopeMatches, NamesProvider, RefKey, TrimSpace, ToLower, ID1, ID2;
    IdBudget(ID1);
    IdBudget(ID2);
    OneSpelling();
    assert |"openai"| == 6;
    DifferentIds();
    PlainCounts(a, ImportedRow(clock));
    PlainCounts(a, EstimatedRow(clock));
    PlainCounts(b, ImportedRow(clock));
    PlainCounts(b, EstimatedRow(clock));
  }

  /** Concretely: two providers whose names differ only in case, with budgets by id. Every row is
      counted once, but the whole drops the one's estimate for the other's import, and the budgets
      do not. */
  lemma TwoSpellingsDisagree(clock: Clock) returns (bs: seq<Budget>, u: Row, v: Row)
    ensures |bs| == 2 && OnePeriod(bs, clock, clock.month) && Distinct(RefKeys(bs))
    ensures Supersedes(u, v, clock.month) && u.providerName != v.providerName
    ensures Matching(bs, u) == 1 && Matching(bs, v) == 1
    ensures ActualSum(bs, [u, v], clock) != Cost([u, v], clock.month, Everything)
  {
    hide ScopeMatches, NamesProvider, RefKey, PeriodStart, ActualSum, Cost, Matching, Supersedes;
    u, v := ImportedRow(clock), EstimatedRow(clock);
    var a, b := MonthlyBudget(ID1), MonthlyBudget(ID2);
    bs := [a, b];
    ImportedSupersedes(clock);
    OneMatchEach(a, b, clock);
    Monthly(clock);
    TwoBudgets(a, b, u);
    TwoBudgets(a, b, v);
    assert RefKeys(bs)[0] == ID1 && RefKeys(bs)[1] == ID2;
    assert "OpenAI"[0] != "openai"[0];
    PairConserved(bs, u, v, b, clock, clock.month);
  }

  lemma OneSpelling()
    ensures ToLower("OpenAI") == ToLower("openai") == "openai"
  {
    PlainText("openai");
    var s := "OpenAI";
    assert ToLower(s[6..]) == "";
    assert ToLower(s[5..]) == "i";
    assert ToLower(s[4..]) == "ai";
    assert ToLower(s[3..]) == "nai";
    assert ToLower(s[2..]) == "enai";
    assert ToLower(s[1..]) == "penai";
  }
}

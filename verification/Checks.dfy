/** The compliance engine: which check runs on which resource, and how results add up to a scorecard. */
module Checks {
  import opened Sequences
  import opened Sorting
  import opened Strings

  // ------------------------------------------------------------- running

  /** One provisioned resource; `details` stands for its spec and observed state. */
  datatype Subject = Subject(
    name: string, kind: string, provider: string, account: string, environment: string, status: string, details: string)

  datatype Check = Check(
    id: string, title: string, category: string, severity: string, kinds: seq<string>, remediation: string,
    eval: Subject -> (string, string))

  datatype Result = Result(
    checkId: string, title: string, category: string, severity: string, remediation: string,
    subject: string, kind: string, provider: string, account: string, environment: string,
    status: string, message: string)

  predicate Applies(c: Check, kind: string) {
    c.kinds == [] || kind in c.kinds
  }

  function Evaluate(c: Check, s: Subject): Result {
    var (status, message) := c.eval(s);
    Result(c.id, c.title, c.category, c.severity, c.remediation,
           s.name, s.kind, s.provider, s.account, s.environment, status, message)
  }

  /** The results one subject gets from the checks, in order. */
  function ResultsOf(checks: seq<Check>, s: Subject): seq<Result> {
    if checks == [] then []
    else
      var before := ResultsOf(checks[..|checks|-1], s);
      var c := checks[|checks|-1];
      if Applies(c, s.kind) then before + [Evaluate(c, s)] else before
  }

  predicate Destroyed(s: Subject) {
    s.status == "destroyed"
  }

  function RunAll(checks: seq<Check>, subjects: seq<Subject>): seq<Result> {
    if subjects == [] then []
    else
      var s := subjects[|subjects|-1];
      RunAll(checks, subjects[..|subjects|-1]) + if Destroyed(s) then [] else ResultsOf(checks, s)
  }

  method Run(checks: seq<Check>, subjects: seq<Subject>) returns (out: seq<Result>)
    ensures out == RunAll(checks, subjects)
  {
    out := [];
    for i := 0 to |subjects|
      invariant out == RunAll(checks, subjects[..i])
    {
      var s := subjects[i];
      assert subjects[..i+1][..i] == subjects[..i];
      if s.status == "destroyed" {
        continue;
      }
      ghost var before := out;
      for j := 0 to |checks|
        invariant out == before + ResultsOf(checks[..j], s)
      {
        assert checks[..j+1][..j] == checks[..j];
        if !Applies(checks[j], s.kind) {
          continue;
        }
        var (st, msg) := checks[j].eval(s);
        var c := checks[j];
        out := out + [Result(c.id, c.title, c.category, c.severity, c.remediation,
                             s.name, s.kind, s.provider, s.account, s.environment, st, msg)];
      }
      assert checks[..|checks|] == checks;
    }
    assert subjects[..|subjects|] == subjects;
  }

  /** Subjects are evaluated one by one: lists of subjects may be run apart and joined. */
  lemma {:induction false} RunConcat(checks: seq<Check>, a: seq<Subject>, b: seq<Subject>)
    ensures RunAll(checks, a + b) == RunAll(checks, a) + RunAll(checks, b)
  {
    if b == [] {
      assert a + b == a;
    } else {
      assert (a + b)[..|a + b|-1] == a + b[..|b|-1];
      RunConcat(checks, a, b[..|b|-1]);
    }
  }

  /** Order of subjects aside, the results are the same; destroyed ones add nothing. */
  lemma {:induction false} RunPermutes(checks: seq<Check>, a: seq<Subject>, b: seq<Subject>)
    requires multiset(a) == multiset(b)
    ensures multiset(RunAll(checks, a)) == multiset(RunAll(checks, b))
    decreases |a|
  {
    if a == [] {
      assert |b| == |multiset(b)| == |multiset(a)| == 0;
    } else {
      var init := a[..|a|-1];
      var l, x, r := TakeOut(a, b);
      RunPermutes(checks, init, l + r);
      RunConcat(checks, l, r);
      RunConcat(checks, l + [x], r);
      RunConcat(checks, l, [x]);
      RunConcat(checks, init, [x]);
    }
  }

  function Living(subjects: seq<Subject>): seq<Subject> {
    if subjects == [] then []
    else Living(subjects[..|subjects|-1]) + if Destroyed(subjects[|subjects|-1]) then [] else [subjects[|subjects|-1]]
  }

  lemma {:induction false} DestroyedCountForNothing(checks: seq<Check>, subjects: seq<Subject>)
    ensures RunAll(checks, subjects) == RunAll(checks, Living(subjects))
  {
    if subjects != [] {
      var s := subjects[|subjects|-1];
      DestroyedCountForNothing(checks, subjects[..|subjects|-1]);
      if !Destroyed(s) {
        assert Living(subjects)[..|Living(subjects)|-1] == Living(subjects[..|subjects|-1]);
      } else {
        assert Living(subjects) == Living(subjects[..|subjects|-1]);
      }
    }
  }

  // ------------------------------------------------------------- counting

  function SeverityRank(s: string): int {
    if s == "critical" then 3 else if s == "warning" then 2 else if s == "info" then 1 else 0
  }

  function Pct(passed: nat, failed: nat): real {
    if passed + failed == 0 then 100.0 else passed as real / (passed + failed) as real * 100.0
  }

  predicate Skipped(r: Result) { r.status == "skip" }
  predicate Passing(r: Result) { r.status == "pass" }
  predicate Failing(r: Result) { !Skipped(r) && !Passing(r) }

  datatype Dimension = Category | Account | Environment | CheckId

  function KeyOf(dim: Dimension, r: Result): string {
    match dim
    case Category => r.category
    case Account => if r.account == "" then "(provider default)" else r.account
    case Environment => if r.environment == "" then "(none)" else r.environment
    case CheckId => r.checkId
  }

  function Count(p: Result -> bool, rs: seq<Result>): nat {
    if rs == [] then 0 else Count(p, rs[..|rs|-1]) + if p(rs[|rs|-1]) then 1 else 0
  }

  function PassedIn(dim: Dimension, k: string, rs: seq<Result>): nat {
    if rs == [] then 0
    else PassedIn(dim, k, rs[..|rs|-1]) + if Passing(rs[|rs|-1]) && KeyOf(dim, rs[|rs|-1]) == k then 1 else 0
  }

  function FailedIn(dim: Dimension, k: string, rs: seq<Result>): nat {
    if rs == [] then 0
    else FailedIn(dim, k, rs[..|rs|-1]) + if Failing(rs[|rs|-1]) && KeyOf(dim, rs[|rs|-1]) == k then 1 else 0
  }

  predicate CriticalFailure(r: Result) { Failing(r) && r.severity == "critical" }
  predicate WarningFailure(r: Result) { Failing(r) && r.severity == "warning" }
  predicate NotSkipped(r: Result) { !Skipped(r) }

  /** The keys that occur, in order of first appearance. */
  function Keys(dim: Dimension, rs: seq<Result>): seq<string> {
    if rs == [] then []
    else
      var before := Keys(dim, rs[..|rs|-1]);
      var r := rs[|rs|-1];
      if Skipped(r) || KeyOf(dim, r) in before then before else before + [KeyOf(dim, r)]
  }

  function Failures(rs: seq<Result>): seq<Result> {
    if rs == [] then []
    else Failures(rs[..|rs|-1]) + if Failing(rs[|rs|-1]) then [rs[|rs|-1]] else []
  }

  /** The first result that introduced a check id supplies the summary's texts. */
  function FirstOf(id: string, rs: seq<Result>): Result
    requires id in Keys(CheckId, rs)
  {
    if id in Keys(CheckId, rs[..|rs|-1]) then FirstOf(id, rs[..|rs|-1]) else rs[|rs|-1]
  }

  // ---------------------------------------------------------- the scorecard

  datatype Group = Group(name: string, passed: nat, failed: nat, score: real)
  datatype Summary = Summary(id: string, title: string, category: string, severity: string, passed: nat, failed: nat)

  datatype Scorecard = Scorecard(
    score: real, evaluated: nat, passed: nat, failed: nat, criticalFailing: nat, warningFailing: nat,
    byCategory: seq<Group>, byAccount: seq<Group>, byEnvironment: seq<Group>, checks: seq<Summary>, failures: seq<Result>)

  function Groups(dim: Dimension, rs: seq<Result>, keys: seq<string>): (gs: seq<Group>)
    ensures |gs| == |keys|
  {
    seq(|keys|, i requires 0 <= i < |keys| =>
      var p, f := PassedIn(dim, keys[i], rs), FailedIn(dim, keys[i], rs);
      Group(keys[i], p, f, Pct(p, f)))
  }

  function Summarize(rs: seq<Result>, keys: seq<string>): (ss: seq<Summary>)
    requires forall k :: k in keys ==> k in Keys(CheckId, rs)
    ensures |ss| == |keys|
  {
    seq(|keys|, i requires 0 <= i < |keys| =>
      var r := FirstOf(keys[i], rs);
      Summary(keys[i], r.title, r.category, r.severity, PassedIn(CheckId, keys[i], rs), FailedIn(CheckId, keys[i], rs)))
  }

  predicate WorseScore(a: Group, b: Group) {
    a.score < b.score
  }

  predicate MoreUrgent(a: Result, b: Result) {
    var ra, rb := SeverityRank(a.severity), SeverityRank(b.severity);
    if ra != rb then ra > rb else Less(a.checkId, b.checkId)
  }

  datatype Tally = Tally(passed: nat, failed: nat)

  function Bump(m: map<string, Tally>, k: string, passed: bool): map<string, Tally> {
    var t := if k in m then m[k] else Tally(0, 0);
    m[k := if passed then t.(passed := t.passed + 1) else t.(failed := t.failed + 1)]
  }

  /** What the maps and the order lists of the scoring loop hold after some results. */
  ghost predicate Tallied(dim: Dimension, m: map<string, Tally>, order: seq<string>, rs: seq<Result>) {
    && order == Keys(dim, rs)
    && (forall k :: k in m <==> k in order)
    && (forall k :: k in m ==> m[k] == Tally(PassedIn(dim, k, rs), FailedIn(dim, k, rs)))
  }

  lemma {:induction false} UnseenKey(dim: Dimension, k: string, rs: seq<Result>)
    requires k !in Keys(dim, rs)
    ensures PassedIn(dim, k, rs) == 0 && FailedIn(dim, k, rs) == 0
  {
    hide KeyOf;
    if rs != [] {
      UnseenKey(dim, k, rs[..|rs|-1]);
    }
  }

  lemma SkippedChangesNothing(dim: Dimension, m: map<string, Tally>, order: seq<string>, rs: seq<Result>, r: Result)
    requires Tallied(dim, m, order, rs) && Skipped(r)
    ensures Tallied(dim, m, order, rs + [r])
  {
    hide KeyOf;
    assert (rs + [r])[..|rs|] == rs;
  }

  lemma BumpTallies(dim: Dimension, m: map<string, Tally>, order: seq<string>, rs: seq<Result>, r: Result)
    requires Tallied(dim, m, order, rs) && !Skipped(r)
    ensures var k := KeyOf(dim, r);
            Tallied(dim, Bump(m, k, Passing(r)), if k in m then order else order + [k], rs + [r])
  {
    hide KeyOf;
    var k := KeyOf(dim, r);
    assert (rs + [r])[..|rs|] == rs;
    if k !in m { UnseenKey(dim, k, rs); }
  }

  lemma CountStep(rs: seq<Result>, r: Result)
    ensures Count(Passing, rs + [r]) == Count(Passing, rs) + if Passing(r) then 1 else 0
    ensures Count(Failing, rs + [r]) == Count(Failing, rs) + if Failing(r) then 1 else 0
    ensures Count(CriticalFailure, rs + [r]) == Count(CriticalFailure, rs) + if CriticalFailure(r) then 1 else 0
    ensures Count(WarningFailure, rs + [r]) == Count(WarningFailure, rs) + if WarningFailure(r) then 1 else 0
    ensures Failures(rs + [r]) == Failures(rs) + if Failing(r) then [r] else []
  {
    assert (rs + [r])[..|rs|] == rs;
  }

  lemma NothingTallied(dim: Dimension, rs: seq<Result>)
    ensures Tallied(dim, map[], [], rs[..0])
    ensures Count(Passing, rs[..0]) == Count(Failing, rs[..0]) == 0
    ensures Count(CriticalFailure, rs[..0]) == Count(WarningFailure, rs[..0]) == 0 && Failures(rs[..0]) == []
  {
  }

  method BuildGroups(dim: Dimension, m: map<string, Tally>, order: seq<string>, ghost rs: seq<Result>) returns (gs: seq<Group>)
    requires Tallied(dim, m, order, rs)
    ensures gs == Groups(dim, rs, order)
  {
    gs := [];
    for i := 0 to |order|
      invariant gs == Groups(dim, rs, order)[..i]
    {
      var t := m[order[i]];
      gs := gs + [Group(order[i], t.passed, t.failed, Pct(t.passed, t.failed))];
    }
  }

  method BuildSummaries(m: map<string, Tally>, info: map<string, Result>, order: seq<string>, ghost rs: seq<Result>)
    returns (ss: seq<Summary>)
    requires Tallied(CheckId, m, order, rs)
    requires forall k :: k in order ==> k in info && info[k] == FirstOf(k, rs)
    ensures ss == Summarize(rs, order)
  {
    ss := [];
    for i := 0 to |order|
      invariant ss == Summarize(rs, order)[..i]
    {
      var k := order[i];
      ss := ss + [Summary(k, info[k].title, info[k].category, info[k].severity, m[k].passed, m[k].failed)];
    }
  }

  lemma FirstOfStep(rs: seq<Result>, r: Result, k: string)
    requires k in Keys(CheckId, rs + [r])
    ensures FirstOf(k, rs + [r]) == if k in Keys(CheckId, rs) then FirstOf(k, rs) else r
  {
    assert (rs + [r])[..|rs|] == rs;
  }

  /** One pass over the results keeping totals and four group-by maps, then the stable sorts. */
  method Score(rs: seq<Result>) returns (sc: Scorecard)
    ensures sc.passed == Count(Passing, rs) && sc.failed == Count(Failing, rs)
    ensures sc.evaluated == sc.passed + sc.failed && sc.score == Pct(sc.passed, sc.failed)
    ensures sc.criticalFailing == Count(CriticalFailure, rs) && sc.warningFailing == Count(WarningFailure, rs)
    ensures sc.byCategory == StableSort(WorseScore, Groups(Category, rs, Keys(Category, rs)))
    ensures sc.byAccount == StableSort(WorseScore, Groups(Account, rs, Keys(Account, rs)))
    ensures sc.byEnvironment == Groups(Environment, rs, Keys(Environment, rs))
    ensures sc.checks == Summarize(rs, Keys(CheckId, rs))
    ensures sc.failures == StableSort(MoreUrgent, Failures(rs))
  {
    hide Tallied, Count, Failures, Keys, FirstOf, Groups, Summarize, Bump, KeyOf;
    var passed, failed, critical, warning := 0, 0, 0, 0;
    var cat: map<string, Tally>, acct: map<string, Tally>, env: map<string, Tally>, chk: map<string, Tally>
      := map[], map[], map[], map[];
    var info: map<string, Result> := map[];
    var catOrder, acctOrder, envOrder, chkOrder: seq<string> := [], [], [], [];
    var failures: seq<Result> := [];
    NothingTallied(Category, rs);
    NothingTallied(Account, rs);
    NothingTallied(Environment, rs);
    NothingTallied(CheckId, rs);
    for i := 0 to |rs|
      invariant passed == Count(Passing, rs[..i]) && failed == Count(Failing, rs[..i])
      invariant critical == Count(CriticalFailure, rs[..i]) && warning == Count(WarningFailure, rs[..i])
      invariant failures == Failures(rs[..i])
      invariant Tallied(Category, cat, catOrder, rs[..i]) && Tallied(Account, acct, acctOrder, rs[..i])
      invariant Tallied(Environment, env, envOrder, rs[..i]) && Tallied(CheckId, chk, chkOrder, rs[..i])
      invariant forall k :: k in info <==> k in chk
      invariant forall k :: k in info ==> k in Keys(CheckId, rs[..i]) && info[k] == FirstOf(k, rs[..i])
    {
      var r := rs[i];
      assert rs[..i+1] == rs[..i] + [r];
      CountStep(rs[..i], r);
      if r.status == "skip" {
        SkipStep(cat, catOrder, acct, acctOrder, env, envOrder, chk, chkOrder, rs[..i], r);
        InfoStep(info, chk, chkOrder, rs[..i], r);
        continue;
      }
      var ok := r.status == "pass";
      if ok {
        passed := passed + 1;
      } else {
        failed := failed + 1;
        if r.severity == "critical" {
          critical := critical + 1;
        } else if r.severity == "warning" {
          warning := warning + 1;
        }
        failures := failures + [r];
      }
      BumpTallies(Category, cat, catOrder, rs[..i], r);
      BumpTallies(Account, acct, acctOrder, rs[..i], r);
      BumpTallies(Environment, env, envOrder, rs[..i], r);
      BumpTallies(CheckId, chk, chkOrder, rs[..i], r);
      InfoStep(info, chk, chkOrder, rs[..i], r);
      var c, a, e := KeyOf(Category, r), KeyOf(Account, r), KeyOf(Environment, r);
      catOrder := if c in cat then catOrder else catOrder + [c];
      acctOrder := if a in acct then acctOrder else acctOrder + [a];
      envOrder := if e in env then envOrder else envOrder + [e];
      if r.checkId !in chk {
        info := info[r.checkId := r];
        chkOrder := chkOrder + [r.checkId];
      }
      cat, acct, env, chk := Bump(cat, c, ok), Bump(acct, a, ok), Bump(env, e, ok), Bump(chk, KeyOf(CheckId, r), ok);
    }
    assert rs[..|rs|] == rs;
    var byCategory := BuildGroups(Category, cat, catOrder, rs);
    var byAccount := BuildGroups(Account, acct, acctOrder, rs);
    var byEnvironment := BuildGroups(Environment, env, envOrder, rs);
    OrdersAreKeys(cat, catOrder, acct, acctOrder, env, envOrder, chk, chkOrder, rs);
    var summaries := BuildSummaries(chk, info, chkOrder, rs);
    sc := Scorecard(Pct(passed, failed), passed + failed, passed, failed, critical, warning,
                    StableSort(WorseScore, byCategory), StableSort(WorseScore, byAccount), byEnvironment, summaries,
                    StableSort(MoreUrgent, failures));
  }

  lemma OrdersAreKeys(cat: map<string, Tally>, catOrder: seq<string>, acct: map<string, Tally>, acctOrder: seq<string>,
                      env: map<string, Tally>, envOrder: seq<string>, chk: map<string, Tally>, chkOrder: seq<string>, rs: seq<Result>)
    requires Tallied(Category, cat, catOrder, rs) && Tallied(Account, acct, acctOrder, rs)
    requires Tallied(Environment, env, envOrder, rs) && Tallied(CheckId, chk, chkOrder, rs)
    ensures catOrder == Keys(Category, rs) && acctOrder == Keys(Account, rs)
    ensures envOrder == Keys(Environment, rs) && chkOrder == Keys(CheckId, rs)
    ensures forall k :: k in chkOrder ==> k in chk
  {
  }

  lemma SkipStep(cat: map<string, Tally>, catOrder: seq<string>, acct: map<string, Tally>, acctOrder: seq<string>,
                 env: map<string, Tally>, envOrder: seq<string>, chk: map<string, Tally>, chkOrder: seq<string>,
                 rs: seq<Result>, r: Result)
    requires Tallied(Category, cat, catOrder, rs) && Tallied(Account, acct, acctOrder, rs)
    requires Tallied(Environment, env, envOrder, rs) && Tallied(CheckId, chk, chkOrder, rs) && Skipped(r)
    ensures Tallied(Category, cat, catOrder, rs + [r]) && Tallied(Account, acct, acctOrder, rs + [r])
    ensures Tallied(Environment, env, envOrder, rs + [r]) && Tallied(CheckId, chk, chkOrder, rs + [r])
  {
    hide Tallied;
    SkippedChangesNothing(Category, cat, catOrder, rs, r);
    SkippedChangesNothing(Account, acct, acctOrder, rs, r);
    SkippedChangesNothing(Environment, env, envOrder, rs, r);
    SkippedChangesNothing(CheckId, chk, chkOrder, rs, r);
  }

  /** The texts of a check id are those of its first counted result. */
  lemma InfoStep(info: map<string, Result>, chk: map<string, Tally>, chkOrder: seq<string>, rs: seq<Result>, r: Result)
    requires Tallied(CheckId, chk, chkOrder, rs)
    requires forall k :: k in info <==> k in chk
    requires forall k :: k in info ==> k in Keys(CheckId, rs) && info[k] == FirstOf(k, rs)
    ensures forall k :: k in info ==> k in Keys(CheckId, rs + [r]) && info[k] == FirstOf(k, rs + [r])
    ensures !Skipped(r) && r.checkId !in info ==> r.checkId in Keys(CheckId, rs + [r]) && FirstOf(r.checkId, rs + [r]) == r
    ensures KeyOf(CheckId, r) == r.checkId
    ensures forall k :: k in Bump(chk, r.checkId, Passing(r)) <==> k in chk || k == r.checkId
  {
    assert (rs + [r])[..|rs|] == rs;
    forall k | k in info ensures k in Keys(CheckId, rs + [r]) && info[k] == FirstOf(k, rs + [r]) {
      FirstOfStep(rs, r, k);
    }
  }

  // ----------------------------------------------------------- conservation

  function SumPassed(gs: seq<Group>): nat {
    if gs == [] then 0 else SumPassed(gs[..|gs|-1]) + gs[|gs|-1].passed
  }

  function SumFailed(gs: seq<Group>): nat {
    if gs == [] then 0 else SumFailed(gs[..|gs|-1]) + gs[|gs|-1].failed
  }

  function PassedOver(dim: Dimension, keys: seq<string>, rs: seq<Result>): nat {
    if keys == [] then 0 else PassedOver(dim, keys[..|keys|-1], rs) + PassedIn(dim, keys[|keys|-1], rs)
  }

  function FailedOver(dim: Dimension, keys: seq<string>, rs: seq<Result>): nat {
    if keys == [] then 0 else FailedOver(dim, keys[..|keys|-1], rs) + FailedIn(dim, keys[|keys|-1], rs)
  }

  lemma {:induction false} OneMoreResult(dim: Dimension, keys: seq<string>, rs: seq<Result>, r: Result)
    requires Distinct(keys)
    ensures PassedOver(dim, keys, rs + [r]) == PassedOver(dim, keys, rs) + if Passing(r) && KeyOf(dim, r) in keys then 1 else 0
    ensures FailedOver(dim, keys, rs + [r]) == FailedOver(dim, keys, rs) + if Failing(r) && KeyOf(dim, r) in keys then 1 else 0
  {
    hide KeyOf;
    if keys != [] {
      OneMoreResult(dim, keys[..|keys|-1], rs, r);
      assert keys == keys[..|keys|-1] + [keys[|keys|-1]];
      assert (rs + [r])[..|rs|] == rs;
    }
  }

  lemma KeysStep(dim: Dimension, rs: seq<Result>, r: Result)
    ensures Keys(dim, rs + [r]) ==
            if Skipped(r) || KeyOf(dim, r) in Keys(dim, rs) then Keys(dim, rs) else Keys(dim, rs) + [KeyOf(dim, r)]
  {
    hide KeyOf;
    assert (rs + [r])[..|rs|] == rs;
  }

  lemma OneMoreKey(dim: Dimension, keys: seq<string>, k: string, rs: seq<Result>)
    ensures PassedOver(dim, keys + [k], rs) == PassedOver(dim, keys, rs) + PassedIn(dim, k, rs)
    ensures FailedOver(dim, keys + [k], rs) == FailedOver(dim, keys, rs) + FailedIn(dim, k, rs)
  {
    hide PassedIn, FailedIn;
    assert (keys + [k])[..|keys|] == keys;
  }

  lemma FirstResultOfKey(dim: Dimension, rs: seq<Result>, r: Result)
    requires !Skipped(r) && KeyOf(dim, r) !in Keys(dim, rs)
    ensures PassedIn(dim, KeyOf(dim, r), rs + [r]) == if Passing(r) then 1 else 0
    ensures FailedIn(dim, KeyOf(dim, r), rs + [r]) == if Failing(r) then 1 else 0
  {
    hide KeyOf, Keys;
    UnseenKey(dim, KeyOf(dim, r), rs);
    assert (rs + [r])[..|rs|] == rs;
  }

  ghost predicate Partitioned(dim: Dimension, rs: seq<Result>) {
    && Distinct(Keys(dim, rs))
    && PassedOver(dim, Keys(dim, rs), rs) == Count(Passing, rs)
    && FailedOver(dim, Keys(dim, rs), rs) == Count(Failing, rs)
  }

  lemma PartitionStep(dim: Dimension, rs: seq<Result>, r: Result)
    requires Partitioned(dim, rs)
    ensures Partitioned(dim, rs + [r])
  {
    hide KeyOf, Keys, PassedOver, FailedOver, PassedIn, FailedIn, Count, Failures, CriticalFailure, WarningFailure;
    var keys, k := Keys(dim, rs), KeyOf(dim, r);
    CountStep(rs, r);
    KeysStep(dim, rs, r);
    OneMoreResult(dim, keys, rs, r);
    if !Skipped(r) && k !in keys {
      OneMoreKey(dim, keys, k, rs + [r]);
      FirstResultOfKey(dim, rs, r);
    }
  }

  /** Every counted result falls into exactly one group of each breakdown. */
  lemma {:induction false} KeysPartition(dim: Dimension, rs: seq<Result>)
    ensures Partitioned(dim, rs)
  {
    if rs != [] {
      hide Partitioned;
      KeysPartition(dim, rs[..|rs|-1]);
      PartitionStep(dim, rs[..|rs|-1], rs[|rs|-1]);
      assert rs == rs[..|rs|-1] + [rs[|rs|-1]];
    }
  }

  lemma {:induction false} GroupSums(dim: Dimension, keys: seq<string>, rs: seq<Result>)
    ensures SumPassed(Groups(dim, rs, keys)) == PassedOver(dim, keys, rs)
    ensures SumFailed(Groups(dim, rs, keys)) == FailedOver(dim, keys, rs)
  {
    if keys != [] {
      GroupSums(dim, keys[..|keys|-1], rs);
      assert Groups(dim, rs, keys)[..|keys|-1] == Groups(dim, rs, keys[..|keys|-1]);
    }
  }

  lemma {:induction false} SumsConcat(a: seq<Group>, b: seq<Group>)
    ensures SumPassed(a + b) == SumPassed(a) + SumPassed(b)
    ensures SumFailed(a + b) == SumFailed(a) + SumFailed(b)
  {
    if b == [] {
      assert a + b == a;
    } else {
      assert (a + b)[..|a + b|-1] == a + b[..|b|-1];
      SumsConcat(a, b[..|b|-1]);
    }
  }

  lemma OneGroup(g: Group)
    ensures SumPassed([g]) == g.passed && SumFailed([g]) == g.failed
  {
    assert [g][..0] == [];
  }

  lemma {:induction false} InsertSums(g: Group, gs: seq<Group>)
    ensures SumPassed(Insert(WorseScore, g, gs)) == g.passed + SumPassed(gs)
    ensures SumFailed(Insert(WorseScore, g, gs)) == g.failed + SumFailed(gs)
  {
    OneGroup(g);
    if gs == [] || !WorseScore(gs[0], g) {
      SumsConcat([g], gs);
    } else {
      InsertSums(g, gs[1..]);
      assert gs == [gs[0]] + gs[1..];
      SumsConcat([gs[0]], gs[1..]);
      SumsConcat([gs[0]], Insert(WorseScore, g, gs[1..]));
    }
  }

  lemma {:induction false} SortSums(gs: seq<Group>)
    ensures SumPassed(StableSort(WorseScore, gs)) == SumPassed(gs)
    ensures SumFailed(StableSort(WorseScore, gs)) == SumFailed(gs)
  {
    if gs != [] {
      SortSums(gs[1..]);
      InsertSums(gs[0], StableSort(WorseScore, gs[1..]));
      assert gs == [gs[0]] + gs[1..];
      OneGroup(gs[0]);
      SumsConcat([gs[0]], gs[1..]);
    }
  }

  /** Is this list of groups the breakdown of these results along one dimension, in whatever order? */
  ghost predicate IsBreakdown(dim: Dimension, gs: seq<Group>, rs: seq<Result>) {
    gs == Groups(dim, rs, Keys(dim, rs)) || gs == StableSort(WorseScore, Groups(dim, rs, Keys(dim, rs)))
  }

  /** Counts are conserved: each breakdown's passed and failed add up to the overall figures, and
      together they are the results that were not skipped. */
  lemma BreakdownConserves(dim: Dimension, gs: seq<Group>, rs: seq<Result>)
    requires IsBreakdown(dim, gs, rs)
    ensures SumPassed(gs) == Count(Passing, rs) && SumFailed(gs) == Count(Failing, rs)
    ensures Count(Passing, rs) + Count(Failing, rs) == Count(NotSkipped, rs)
  {
    hide Count, Keys, StableSort, Groups, SumPassed, SumFailed;
    KeysPartition(dim, rs);
    GroupSums(dim, Keys(dim, rs), rs);
    SortSums(Groups(dim, rs, Keys(dim, rs)));
    PassOrFail(rs);
  }

  lemma {:induction false} PassOrFail(rs: seq<Result>)
    ensures Count(Passing, rs) + Count(Failing, rs) == Count(NotSkipped, rs)
  {
    if rs != [] {
      PassOrFail(rs[..|rs|-1]);
      assert "pass" != "skip";
    }
  }

  lemma {:induction false} SummariesConserve(rs: seq<Result>, keys: seq<string>)
    requires forall k :: k in keys ==> k in Keys(CheckId, rs)
    ensures SummaryPassed(Summarize(rs, keys)) == PassedOver(CheckId, keys, rs)
    ensures SummaryFailed(Summarize(rs, keys)) == FailedOver(CheckId, keys, rs)
  {
    if keys != [] {
      SummariesConserve(rs, keys[..|keys|-1]);
      assert Summarize(rs, keys)[..|keys|-1] == Summarize(rs, keys[..|keys|-1]);
    }
  }

  function SummaryPassed(ss: seq<Summary>): nat {
    if ss == [] then 0 else SummaryPassed(ss[..|ss|-1]) + ss[|ss|-1].passed
  }

  function SummaryFailed(ss: seq<Summary>): nat {
    if ss == [] then 0 else SummaryFailed(ss[..|ss|-1]) + ss[|ss|-1].failed
  }

  /** The per-check summaries conserve the counts as well. */
  lemma CheckSummariesConserve(rs: seq<Result>)
    ensures SummaryPassed(Summarize(rs, Keys(CheckId, rs))) == Count(Passing, rs)
    ensures SummaryFailed(Summarize(rs, Keys(CheckId, rs))) == Count(Failing, rs)
  {
    hide Count, Keys, Summarize;
    KeysPartition(CheckId, rs);
    SummariesConserve(rs, Keys(CheckId, rs));
  }

  /** Sum of the groups' scores, each weighted by how many results it counts. */
  function Weighted(gs: seq<Group>): real {
    if gs == [] then 0.0
    else
      var g := gs[|gs|-1];
      Weighted(gs[..|gs|-1]) + g.score * (g.passed + g.failed) as real
  }

  ghost predicate ScoredByPct(gs: seq<Group>) {
    forall g :: g in gs ==> g.score == Pct(g.passed, g.failed)
  }

  lemma PctTimesTotal(p: nat, f: nat)
    ensures Pct(p, f) * (p + f) as real == 100.0 * p as real
  {
    if p + f != 0 {
      var n := (p + f) as real;
      var q := p as real / n;
      assert q * n == p as real;
      assert q * 100.0 * n == 100.0 * (q * n);
    }
  }

  lemma {:induction false} WeightedIsPassed(gs: seq<Group>)
    requires ScoredByPct(gs)
    ensures Weighted(gs) == 100.0 * SumPassed(gs) as real
  {
    hide Pct;
    if gs != [] {
      var g := gs[|gs|-1];
      assert g in gs;
      WeightedIsPassed(gs[..|gs|-1]);
      PctTimesTotal(g.passed, g.failed);
    }
  }

  /** How far the groups' scores lie above x, each weighted by its count. */
  function Excess(gs: seq<Group>, x: real): real {
    if gs == [] then 0.0
    else
      var g := gs[|gs|-1];
      Excess(gs[..|gs|-1], x) + Times(g.score - x, g.passed + g.failed)
  }

  function Times(d: real, n: nat): real {
    d * n as real
  }

  lemma {:induction false} ExcessOverMean(gs: seq<Group>, x: real)
    ensures Excess(gs, x) == Weighted(gs) - x * (SumPassed(gs) + SumFailed(gs)) as real
  {
    if gs != [] {
      var init, g := gs[..|gs|-1], gs[|gs|-1];
      ExcessOverMean(init, x);
      Distribute(g.score, x, (SumPassed(init) + SumFailed(init)) as real, (g.passed + g.failed) as real);
      assert (SumPassed(gs) + SumFailed(gs)) as real
          == (SumPassed(init) + SumFailed(init)) as real + (g.passed + g.failed) as real;
    }
  }

  lemma Distribute(a: real, x: real, m: real, n: real)
    ensures (a - x) * n == a * n - x * n
    ensures x * (m + n) == x * m + x * n
  {
  }

  /** Groups that all lie on one side of x have an excess of that sign, and not zero once they count anything. */
  lemma {:induction false} ExcessSign(gs: seq<Group>, x: real, above: bool)
    requires forall g :: g in gs ==> if above then g.score > x else g.score < x
    ensures if above then Excess(gs, x) >= 0.0 else Excess(gs, x) <= 0.0
    ensures SumPassed(gs) + SumFailed(gs) > 0 ==> Excess(gs, x) != 0.0
  {
    hide Times;
    if gs != [] {
      var init, g := gs[..|gs|-1], gs[|gs|-1];
      assert g in gs && forall h :: h in init ==> h in gs;
      ExcessSign(init, x, above);
      TimesSign(g.score - x, g.passed + g.failed);
    }
  }

  lemma TimesSign(d: real, n: nat)
    requires d != 0.0
    ensures if n == 0 then Times(d, n) == 0.0 else if d > 0.0 then Times(d, n) > 0.0 else Times(d, n) < 0.0
  {
  }

  lemma BreakdownScored(dim: Dimension, gs: seq<Group>, rs: seq<Result>)
    requires IsBreakdown(dim, gs, rs)
    ensures ScoredByPct(gs)
  {
    var plain := Groups(dim, rs, Keys(dim, rs));
    forall g | g in gs ensures g.score == Pct(g.passed, g.failed) {
      assert g in multiset(gs) && multiset(gs) == multiset(plain);
      assert g in plain;
    }
  }

  /** The overall score is the mean of each breakdown's scores weighted by their counts, so no
      breakdown lies wholly above it or wholly below it. */
  lemma ScoreIsWeightedMean(dim: Dimension, gs: seq<Group>, rs: seq<Result>)
    requires IsBreakdown(dim, gs, rs)
    ensures var total := Count(Passing, rs) + Count(Failing, rs);
            var score := Pct(Count(Passing, rs), Count(Failing, rs));
            && score * total as real == Weighted(gs)
            && (total > 0 ==> (exists g :: g in gs && g.score <= score) && (exists g :: g in gs && g.score >= score))
  {
    hide Count, Keys, StableSort, Groups, SumPassed, SumFailed, Weighted, Pct, IsBreakdown;
    BreakdownConserves(dim, gs, rs);
    BreakdownScored(dim, gs, rs);
    WeightedIsPassed(gs);
    PctTimesTotal(SumPassed(gs), SumFailed(gs));
    var total := SumPassed(gs) + SumFailed(gs);
    if total > 0 {
      MeanWithin(gs, Pct(SumPassed(gs), SumFailed(gs)));
    }
  }

  lemma MeanWithin(gs: seq<Group>, x: real)
    requires SumPassed(gs) + SumFailed(gs) > 0
    requires Weighted(gs) == x * (SumPassed(gs) + SumFailed(gs)) as real
    ensures (exists g :: g in gs && g.score <= x) && (exists g :: g in gs && g.score >= x)
  {
    hide SumPassed, SumFailed, Weighted, Excess;
    ExcessOverMean(gs, x);
    if forall g :: g in gs ==> g.score > x { ExcessSign(gs, x, true); }
    if forall g :: g in gs ==> g.score < x { ExcessSign(gs, x, false); }
  }

  // -------------------------------------------------------------- ordering

  lemma UrgencyIsStrictWeak()
    ensures StrictWeak(MoreUrgent)
  {
    forall a, b, c
      ensures !MoreUrgent(a, a)
      ensures MoreUrgent(a, b) && MoreUrgent(b, c) ==> MoreUrgent(a, c)
      ensures !MoreUrgent(a, b) && !MoreUrgent(b, c) ==> !MoreUrgent(a, c)
    {
      hide Less, SeverityRank;
      LessTotal(a.checkId, b.checkId);
      LessTotal(b.checkId, c.checkId);
      LessTotal(a.checkId, c.checkId);
      if Less(a.checkId, b.checkId) && Less(b.checkId, c.checkId) { LessTransitive(a.checkId, b.checkId, c.checkId); }
      if Less(a.checkId, c.checkId) && Less(c.checkId, b.checkId) { LessTransitive(a.checkId, c.checkId, b.checkId); }
    }
  }

  /** The failure list is a permutation of exactly the failing results, most severe first and then by
      check id, and results that agree in both keep their order. */
  lemma FailuresOrdered(rs: seq<Result>)
    ensures var fs := StableSort(MoreUrgent, Failures(rs));
      && multiset(fs) == multiset(Failures(rs)) && |fs| == Count(Failing, rs)
      && (forall r :: r in fs <==> r in rs && Failing(r))
      && (forall i, j :: 0 <= i < j < |fs| ==>
            SeverityRank(fs[i].severity) > SeverityRank(fs[j].severity)
            || (SeverityRank(fs[i].severity) == SeverityRank(fs[j].severity)
                && (fs[i].checkId == fs[j].checkId || Less(fs[i].checkId, fs[j].checkId))))
      && (forall z :: Ties(MoreUrgent, z, fs) == Ties(MoreUrgent, z, Failures(rs)))
  {
    hide Less, SeverityRank, Failing, Count, Failures;
    UrgencyIsStrictWeak();
    StableSortCorrect(MoreUrgent, Failures(rs));
    FailuresMembers(rs);
    var fs := StableSort(MoreUrgent, Failures(rs));
    forall r ensures r in fs <==> r in Failures(rs) {
      assert r in multiset(fs) <==> r in multiset(Failures(rs));
    }
    forall i, j | 0 <= i < j < |fs|
      ensures SeverityRank(fs[i].severity) > SeverityRank(fs[j].severity)
            || (SeverityRank(fs[i].severity) == SeverityRank(fs[j].severity)
                && (fs[i].checkId == fs[j].checkId || Less(fs[i].checkId, fs[j].checkId)))
    {
      assert !MoreUrgent(fs[j], fs[i]);
      LessTotal(fs[i].checkId, fs[j].checkId);
    }
  }

  /** Categories and accounts come worst score first; equal scores stay in order of first appearance. */
  lemma WorstFirst(dim: Dimension, rs: seq<Result>)
    ensures var plain := Groups(dim, rs, Keys(dim, rs)); var gs := StableSort(WorseScore, plain);
      && multiset(gs) == multiset(plain)
      && (forall i, j :: 0 <= i < j < |gs| ==> gs[i].score <= gs[j].score)
      && (forall g :: Ties(WorseScore, g, gs) == Ties(WorseScore, g, plain))
  {
    hide Groups, Keys;
    var plain := Groups(dim, rs, Keys(dim, rs));
    StableSortCorrect(WorseScore, plain);
    var gs := StableSort(WorseScore, plain);
    forall i, j | 0 <= i < j < |gs| ensures gs[i].score <= gs[j].score {
      assert !WorseScore(gs[j], gs[i]);
    }
  }

  lemma {:induction false} FailuresMembers(rs: seq<Result>)
    ensures forall r :: r in Failures(rs) <==> r in rs && Failing(r)
    ensures |Failures(rs)| == Count(Failing, rs)
  {
    hide Failing;
    if rs != [] {
      FailuresMembers(rs[..|rs|-1]);
      assert rs == rs[..|rs|-1] + [rs[|rs|-1]];
    }
  }

  /** Totals depend on the results only as a multiset, so permuting subjects changes no total, no
      group's counts and not the score. */
  lemma {:induction false} CountPermutes(p: Result -> bool, a: seq<Result>, b: seq<Result>)
    requires multiset(a) == multiset(b)
    ensures Count(p, a) == Count(p, b)
    decreases |a|
  {
    if a == [] {
      assert |b| == |multiset(b)| == |multiset(a)| == 0;
    } else {
      var init := a[..|a|-1];
      var l, x, r := TakeOut(a, b);
      CountPermutes(p, init, l + r);
      CountConcat(p, l, r);
      CountConcat(p, l + [x], r);
      CountConcat(p, l, [x]);
      CountConcat(p, init, [x]);
    }
  }

  lemma {:induction false} CountConcat(p: Result -> bool, a: seq<Result>, b: seq<Result>)
    ensures Count(p, a + b) == Count(p, a) + Count(p, b)
  {
    if b == [] {
      assert a + b == a;
    } else {
      assert (a + b)[..|a + b|-1] == a + b[..|b|-1];
      CountConcat(p, a, b[..|b|-1]);
    }
  }

  lemma {:induction false} PassedInIsCount(dim: Dimension, k: string, rs: seq<Result>)
    ensures PassedIn(dim, k, rs) == Count((r: Result) => Passing(r) && KeyOf(dim, r) == k, rs)
    ensures FailedIn(dim, k, rs) == Count((r: Result) => Failing(r) && KeyOf(dim, r) == k, rs)
  {
    hide KeyOf;
    if rs != [] {
      PassedInIsCount(dim, k, rs[..|rs|-1]);
    }
  }

  lemma SubjectOrderIrrelevant(checks: seq<Check>, a: seq<Subject>, b: seq<Subject>, dim: Dimension, k: string)
    requires multiset(a) == multiset(b)
    ensures var ra, rb := RunAll(checks, a), RunAll(checks, b);
      && Count(Passing, ra) == Count(Passing, rb) && Count(Failing, ra) == Count(Failing, rb)
      && Count(CriticalFailure, ra) == Count(CriticalFailure, rb) && Count(WarningFailure, ra) == Count(WarningFailure, rb)
      && PassedIn(dim, k, ra) == PassedIn(dim, k, rb) && FailedIn(dim, k, ra) == FailedIn(dim, k, rb)
  {
    hide Count, PassedIn, FailedIn, RunAll;
    var ra, rb := RunAll(checks, a), RunAll(checks, b);
    RunPermutes(checks, a, b);
    CountPermutes(Passing, ra, rb);
    CountPermutes(Failing, ra, rb);
    CountPermutes(CriticalFailure, ra, rb);
    CountPermutes(WarningFailure, ra, rb);
    PassedInPermutes(dim, k, ra, rb);
  }

  lemma PassedInPermutes(dim: Dimension, k: string, a: seq<Result>, b: seq<Result>)
    requires multiset(a) == multiset(b)
    ensures PassedIn(dim, k, a) == PassedIn(dim, k, b) && FailedIn(dim, k, a) == FailedIn(dim, k, b)
  {
    var p := (r: Result) => Passing(r) && KeyOf(dim, r) == k;
    var f := (r: Result) => Failing(r) && KeyOf(dim, r) == k;
    PassedInIsCount(dim, k, a);
    PassedInIsCount(dim, k, b);
    CountPermutes(p, a, b);
    CountPermutes(f, a, b);
  }
}

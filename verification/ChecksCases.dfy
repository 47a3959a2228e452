/** The scorecard's figures read off the literal statuses, severities and names. */
module ChecksCases {
  import opened Strings
  import opened Checks

  /** Critical before warning before info before anything else. */
  lemma SeveritiesExactly(s: string, t: string)
    ensures SeverityRank("critical") > SeverityRank("warning") > SeverityRank("info")
    ensures s != "critical" && s != "warning" && s != "info" ==> SeverityRank("info") > SeverityRank(s)
    ensures s !in ["critical", "warning", "info"] && t !in ["critical", "warning", "info"] ==> SeverityRank(s) == SeverityRank(t)
  {
    assert |"critical"| == 8 && |"warning"| == 7 && |"info"| == 4;
    assert ["critical", "warning", "info"][0] == "critical" && ["critical", "warning", "info"][1] == "warning"
        && ["critical", "warning", "info"][2] == "info";
  }

  /** One check on one subject, unless the subject is destroyed or of another kind, gives one result,
      which carries the check's and the subject's fields and the check's verdict. */
  lemma RunExactly(checks: seq<Check>, c: Check, s: Subject)
    ensures var before, after := RunAll(checks, [s]), RunAll(checks + [c], [s]);
      && RunAll([], [s]) == []
      && (s.status == "destroyed" || (c.kinds != [] && s.kind !in c.kinds) ==> after == before)
      && (s.status != "destroyed" && (c.kinds == [] || s.kind in c.kinds) ==>
            && |after| == |before| + 1 && after[..|before|] == before
            && var r := after[|before|];
               && r.checkId == c.id && r.title == c.title && r.category == c.category && r.severity == c.severity
               && r.remediation == c.remediation && r.subject == s.name && r.kind == s.kind && r.provider == s.provider
               && r.account == s.account && r.environment == s.environment && (r.status, r.message) == c.eval(s))
  {
    OneSubject(checks, s);
    OneSubject(checks + [c], s);
    OneSubject([], s);
    assert (checks + [c])[..|checks|] == checks;
  }

  lemma OneSubject(checks: seq<Check>, s: Subject)
    ensures RunAll(checks, [s]) == if s.status == "destroyed" then [] else ResultsOf(checks, s)
  {
    assert [s][..0] == [];
  }

  /** Does a result belong to the group named k of a breakdown? */
  predicate InGroup(dim: Dimension, r: Result, k: string) {
    match dim
    case Category => r.category == k
    case Account => if r.account == "" then k == "(provider default)" else r.account == k
    case Environment => if r.environment == "" then k == "(none)" else r.environment == k
    case CheckId => r.checkId == k
  }

  predicate CountsAsFailed(r: Result) {
    r.status != "pass" && r.status != "skip"
  }

  /** What one more result does to each count: "pass" passes, "skip" does not count, anything else fails. */
  lemma CountsExactly(rs: seq<Result>, r: Result, dim: Dimension, k: string)
    ensures Count(Passing, []) == Count(Failing, []) == Count(CriticalFailure, []) == Count(WarningFailure, []) == 0
    ensures PassedIn(dim, k, []) == FailedIn(dim, k, []) == 0
    ensures Count(Passing, rs + [r]) == Count(Passing, rs) + if r.status == "pass" then 1 else 0
    ensures Count(Failing, rs + [r]) == Count(Failing, rs) + if CountsAsFailed(r) then 1 else 0
    ensures Count(CriticalFailure, rs + [r]) == Count(CriticalFailure, rs) + if CountsAsFailed(r) && r.severity == "critical" then 1 else 0
    ensures Count(WarningFailure, rs + [r]) == Count(WarningFailure, rs) + if CountsAsFailed(r) && r.severity == "warning" then 1 else 0
    ensures PassedIn(dim, k, rs + [r]) == PassedIn(dim, k, rs) + if r.status == "pass" && InGroup(dim, r, k) then 1 else 0
    ensures FailedIn(dim, k, rs + [r]) == FailedIn(dim, k, rs) + if CountsAsFailed(r) && InGroup(dim, r, k) then 1 else 0
  {
    assert (rs + [r])[..|rs|] == rs;
    assert "pass"[0] != "skip"[0];
    CountStep(rs, r);
    SameGroup(dim, r, k);
    hide KeyOf, InGroup, Count;
    NothingTallied(dim, []);
  }

  lemma SameGroup(dim: Dimension, r: Result, k: string)
    ensures KeyOf(dim, r) == k <==> InGroup(dim, r, k)
  {
  }

  /** The percentage that passed; everything passes when nothing counts. */
  lemma PercentExactly(passed: nat, failed: nat)
    ensures passed + failed == 0 ==> Pct(passed, failed) == 100.0
    ensures Pct(passed, failed) * (passed + failed) as real == 100.0 * passed as real
  {
    PctTimesTotal(passed, failed);
  }

  /** The groups of a breakdown: the names that counted results have, each once. */
  lemma {:induction false} GroupNamesExactly(dim: Dimension, rs: seq<Result>, k: string)
    ensures k in Keys(dim, rs) <==> exists r :: r in rs && r.status != "skip" && InGroup(dim, r, k)
  {
    hide InGroup, KeyOf;
    if rs != [] {
      var init, last := rs[..|rs|-1], rs[|rs|-1];
      GroupNamesExactly(dim, init, k);
      SameGroup(dim, last, k);
      assert rs == init + [last];
      assert forall r :: r in rs <==> r in init || r == last;
    }
  }

  /** A check's summary takes its texts from the first counted result of that check. */
  lemma {:induction false} FirstResultSpeaks(id: string, rs: seq<Result>, i: nat)
    requires i < |rs| && rs[i].checkId == id && rs[i].status != "skip"
    requires forall j :: 0 <= j < i ==> rs[j].checkId != id || rs[j].status == "skip"
    ensures id in Keys(CheckId, rs) && FirstOf(id, rs) == rs[i]
  {
    var n := |rs| - 1;
    if i < n {
      FirstResultSpeaks(id, rs[..n], i);
    } else {
      GroupNamesExactly(CheckId, rs[..n], id);
    }
  }

  /** What the i-th group and the i-th summary of a breakdown hold. */
  lemma EntriesExactly(dim: Dimension, rs: seq<Result>, i: nat, j: nat)
    requires i < |Keys(dim, rs)| && j < |Keys(CheckId, rs)|
    ensures var k, g := Keys(dim, rs)[i], Groups(dim, rs, Keys(dim, rs))[i];
      && g.name == k && g.passed == PassedIn(dim, k, rs) && g.failed == FailedIn(dim, k, rs)
      && g.score == Pct(g.passed, g.failed)
    ensures var id, m := Keys(CheckId, rs)[j], Summarize(rs, Keys(CheckId, rs))[j];
      && m.id == id && m.passed == PassedIn(CheckId, id, rs) && m.failed == FailedIn(CheckId, id, rs)
      && m.title == FirstOf(id, rs).title && m.category == FirstOf(id, rs).category && m.severity == FirstOf(id, rs).severity
  {
    hide Keys, FirstOf, PassedIn, FailedIn, Pct;
  }

  /** A new name goes to the end: names stand in order of first appearance. */
  lemma NamesInOrder(dim: Dimension, rs: seq<Result>, r: Result, k: string)
    requires InGroup(dim, r, k) && r.status != "skip"
    ensures Keys(dim, rs + [r]) == if k in Keys(dim, rs) then Keys(dim, rs) else Keys(dim, rs) + [k]
  {
    SameGroup(dim, r, k);
    KeysStep(dim, rs, r);
  }
}

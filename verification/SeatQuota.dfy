/** Seat quotas under concurrency: the gate looks at the active instances, the instance is created
    later, and any number of other grants and revokes happen in between. */
module SeatQuota {
  import opened Sequences
  import opened Strings
  import opened Wrappers
  import opened Usage
  import opened Governance

  // ------------------------------------------------ the operations as code

  function FirstNonEmpty(a: string, b: string, c: string): string {
    if !Blank(a) then a else if !Blank(b) then b else if !Blank(c) then c else ""
  }

  /** The first of three texts that is more than white space. */
  lemma FirstNonEmptyExactly(a: string, b: string, c: string)
    ensures !AllSpace(a) ==> FirstNonEmpty(a, b, c) == a
    ensures AllSpace(a) && !AllSpace(b) ==> FirstNonEmpty(a, b, c) == b
    ensures AllSpace(a) && AllSpace(b) && !AllSpace(c) ==> FirstNonEmpty(a, b, c) == c
    ensures AllSpace(a) && AllSpace(b) && AllSpace(c) ==> FirstNonEmpty(a, b, c) == ""
  {
    hide TrimSpace;
    BlankExactly(a);
    BlankExactly(b);
    BlankExactly(c);
  }

  datatype Service = Service(id: string, slug: string, category: string, providerName: string, providerType: string)

  datatype Grant = Refused(reasons: seq<Reason>) | ProviderFailed | InsertFailed | Granted(instance: Instance)

  /** How one request to the provider or the database ends, and the instance table other callers
      leave behind meanwhile. */
  datatype Turn = Turn(ok: bool, others: seq<Instance>)

  function OkAt(script: seq<Turn>, n: nat): bool {
    n < |script| ==> script[n].ok
  }

  /** The table after n requests, before anything of one's own is written. */
  function TableAfter(rows: seq<Instance>, script: seq<Turn>, n: nat): seq<Instance> {
    if n == 0 then rows else if n <= |script| then script[n-1].others else TableAfter(rows, script, n - 1)
  }

  class Instances {
    var rows: seq<Instance>
    var script: seq<Turn>

    constructor (rows: seq<Instance>, script: seq<Turn>)
      ensures this.rows == rows && this.script == script
    {
      this.rows, this.script := rows, script;
    }

    method Call() returns (ok: bool)
      modifies this
      ensures ok == OkAt(old(script), 0) && rows == TableAfter(old(rows), old(script), 1)
      ensures script == Rest(old(script), 1)
    {
      ok := true;
      if script != [] {
        ok, rows, script := script[0].ok, script[0].others, script[1..];
      }
    }

    /** Gate, provider call, insert. The verdict is on the table at entry; the new instance joins
        whatever the table (`during`) has become by then. */
    method ProvisionAIRequest(w: World, service: Service, owner: string, requester: string,
                              workspace: string, environment: string, tenant: Option<string>)
      returns (g: Grant, ghost during: seq<Instance>)
      requires w.instances == rows
      modifies this
      ensures var o := FirstNonEmpty(owner, requester, "unknown");
              var ws := FirstNonEmpty(workspace, environment, "default");
              var rc := Request(service.id, service.slug, service.category, service.providerName, service.providerType, o, ws, tenant);
              && (g.Refused? <==> Blocked(w, rc))
              && (g.Refused? ==> rows == old(rows))
              && (g.ProviderFailed? <==> !Blocked(w, rc) && !OkAt(old(script), 0))
              && (g.InsertFailed? <==> !Blocked(w, rc) && OkAt(old(script), 0) && !OkAt(old(script), 1))
              && (g.ProviderFailed? || g.InsertFailed? ==> rows == during)
              && (g.Granted? ==> g.instance == Instance(service.id, o, ws, tenant, "active") && rows == during + [g.instance])
      ensures var requests := if g.Refused? then 0 else if g.ProviderFailed? then 1 else 2;
              during == TableAfter(old(rows), old(script), requests) && script == Rest(old(script), requests)
    {
      var o := FirstNonEmpty(owner, requester, "unknown");
      var ws := FirstNonEmpty(workspace, environment, "default");
      during := rows;
      var rc := Request(service.id, service.slug, service.category, service.providerName, service.providerType, o, ws, tenant);
      var hard, soft := EvaluateAIGovernance(w, rc);
      if |hard| > 0 {
        return Refused(hard), during;
      }
      var ok := Call();
      during := rows;
      if !ok {
        return ProviderFailed, during;
      }
      var saved := Call();
      during := rows;
      if !saved {
        return InsertFailed, during;
      }
      var inst := Instance(service.id, o, ws, tenant, "active");
      rows := rows + [inst];
      return Granted(inst), during;
    }

    /** Only an instance that is active or suspended at entry can be revoked, and only after the
        provider agreed; the update then falls on whatever the table (`during`) has become. */
    method RevokeAIInstance(i: nat) returns (ok: bool, ghost agreed: bool, ghost during: seq<Instance>)
      modifies this
      ensures !(i < |old(rows)| && old(rows)[i].status in ["active", "suspended"]) ==> !ok && during == old(rows)
      ensures i < |old(rows)| && old(rows)[i].status in ["active", "suspended"] ==>
        && (ok <==> agreed && i < |during|) && agreed == OkAt(old(script), 0)
        && during == TableAfter(old(rows), old(script), 1)
      ensures rows == if ok then during[i := during[i].(status := "revoked")] else during
    {
      agreed, during := false, rows;
      assert ["active", "suspended"][0] == "active" && ["active", "suspended"][1] == "suspended";
      if i >= |rows| || (rows[i].status != "active" && rows[i].status != "suspended") {
        return false, agreed, during;
      }
      var done := Call();
      agreed, during := done, rows;
      if !done || i >= |rows| {
        return false, agreed, during;
      }
      rows := rows[i := rows[i].(status := "revoked")];
      return true, agreed, during;
    }
  }

  // -------------------------------------------------- all callers at once

  /** `pending` holds the requests that have passed the gate and not yet inserted. */
  datatype State = State(instances: seq<Instance>, pending: map<nat, Request>)

  datatype Step =
    | Gate(call: nat, rc: Request, world: World)
    | Finish(call: nat, ok: bool)
    | Revoke(index: nat)

  function InFlightCalls(q: Quota, s: State): set<nat> {
    set c | c in s.pending && QuotaInScope(q, s.pending[c].serviceId)
  }

  function InFlight(q: Quota, s: State): nat {
    |InFlightCalls(q, s)|
  }

  /** A revoke may fall on an instance whose status has changed since it was checked. The gate reads
      the current instances; the quota in question is in force throughout, while
      policies, budgets, other quotas and usage may differ from one gate to the next. */
  predicate Enabled(q: Quota, s: State, step: Step) {
    match step
    case Gate(c, rc, w) => c !in s.pending && w.instances == s.instances && q in w.quotas && !Blocked(w, rc)
    case Finish(c, _) => c in s.pending
    case Revoke(i) => i < |s.instances|
  }

  function Apply(q: Quota, s: State, step: Step): State
    requires Enabled(q, s, step)
  {
    match step
    case Gate(c, rc, _) => s.(pending := s.pending[c := rc])
    case Finish(c, ok) =>
      var rc := s.pending[c];
      State(if ok then s.instances + [Instance(rc.serviceId, rc.owner, rc.workspace, rc.tenant, "active")] else s.instances,
            s.pending - {c})
    case Revoke(i) => s.(instances := s.instances[i := s.instances[i].(status := "revoked")])
  }

  /** A run in which at most k calls are ever between gate and insert. */
  predicate IsRun(q: Quota, k: nat, s: State, steps: seq<Step>)
    decreases |steps|
  {
    && InFlight(q, s) <= k
    && (steps != [] ==> Enabled(q, s, steps[0]) && IsRun(q, k, Apply(q, s, steps[0]), steps[1..]))
  }

  function Exec(q: Quota, k: nat, s: State, steps: seq<Step>): State
    requires IsRun(q, k, s, steps)
    decreases |steps|
  {
    if steps == [] then s else Exec(q, k, Apply(q, s, steps[0]), steps[1..])
  }

  function Ceil(x: real): int {
    -((-x).Floor)
  }

  predicate BlockingSeatQuota(q: Quota) {
    SeatMetric(q) && q.enforcement == "block"
  }

  lemma InFlightRemoves(q: Quota, s: State, c: nat, t: State)
    requires c in s.pending && t.pending == s.pending - {c}
    ensures InFlight(q, t) == InFlight(q, s) - if QuotaInScope(q, s.pending[c].serviceId) then 1 else 0
  {
    hide QuotaInScope;
    var a, b := InFlightCalls(q, s), InFlightCalls(q, t);
    assert b == a - {c};
  }

  lemma InFlightAdds(q: Quota, s: State, c: nat, rc: Request, t: State)
    requires c !in s.pending && t.pending == s.pending[c := rc]
    ensures InFlight(q, t) == InFlight(q, s) + if QuotaInScope(q, rc.serviceId) then 1 else 0
  {
    hide QuotaInScope;
    var a, b := InFlightCalls(q, s), InFlightCalls(q, t);
    assert b == if QuotaInScope(q, rc.serviceId) then a + {c} else a;
  }

  lemma ActiveAppends(q: Quota, rows: seq<Instance>, i: Instance)
    ensures Active(q, rows + [i]) == Active(q, rows) + if Seated(q, i) then 1 else 0
  {
    assert (rows + [i])[..|rows|] == rows;
  }

  lemma {:induction false} RevokeLowers(q: Quota, rows: seq<Instance>, i: nat, r: Instance)
    requires i < |rows| && !Seated(q, r)
    ensures Active(q, rows[i := r]) <= Active(q, rows)
  {
    var n := |rows| - 1;
    if i < n {
      assert rows[i := r][..n] == rows[..n][i := r];
      RevokeLowers(q, rows[..n], i, r);
    } else {
      assert rows[i := r][..n] == rows[..n];
    }
  }

  /** A gate that lets a request through has seen fewer active instances than the quota allows. */
  lemma GatePassesBelowLimit(q: Quota, w: World, rc: Request)
    requires BlockingSeatQuota(q) && q in w.quotas && !Blocked(w, rc) && QuotaInScope(q, rc.serviceId)
    ensures Active(q, w.instances) + 1 <= Ceil(q.limit)
  {
    hide SeatMetric, Denies, Applies, BudgetStatus, Active, QuotaInScope;
    assert !SeatsTaken(q, w.instances, rc);
  }

  lemma StepWithinBound(q: Quota, k: nat, s: State, step: Step)
    requires BlockingSeatQuota(q) && Enabled(q, s, step)
    requires InFlight(q, Apply(q, s, step)) <= k
    requires Active(q, s.instances) + InFlight(q, s) <= Ceil(q.limit) + k - 1
    ensures Active(q, Apply(q, s, step).instances) + InFlight(q, Apply(q, s, step)) <= Ceil(q.limit) + k - 1
  {
    hide BlockingSeatQuota, Blocked, InFlight, Ceil;
    var t := Apply(q, s, step);
    match step
    case Gate(c, rc, w) =>
      InFlightAdds(q, s, c, rc, t);
      if QuotaInScope(q, rc.serviceId) { GatePassesBelowLimit(q, w, rc); }
    case Finish(c, ok) =>
      InFlightRemoves(q, s, c, t);
      if ok { ActiveAppends(q, s.instances, t.instances[|s.instances|]); }
    case Revoke(i) =>
      assert InFlight(q, t) == InFlight(q, s) by { SamePending(q, s, t); }
      RevokeLowers(q, s.instances, i, t.instances[i]);
  }

  lemma SamePending(q: Quota, s: State, t: State)
    requires t.pending == s.pending
    ensures InFlight(q, t) == InFlight(q, s)
  {
  }

  /** With at most k calls between the gate and the insert, a blocking seat quota L is never
      exceeded by more than k - 1: active instances stay within ceil(L) + k - 1, over all grants,
      failed grants and revokes. */
  lemma {:induction false} OvershootBounded(q: Quota, k: nat, s: State, steps: seq<Step>)
    requires BlockingSeatQuota(q) && IsRun(q, k, s, steps)
    requires Active(q, s.instances) + InFlight(q, s) <= Ceil(q.limit) + k - 1
    ensures Active(q, Exec(q, k, s, steps).instances) + InFlight(q, Exec(q, k, s, steps)) <= Ceil(q.limit) + k - 1
    decreases |steps|
  {
    hide BlockingSeatQuota, Enabled, Apply, InFlight, Ceil, Active;
    if steps != [] {
      StepWithinBound(q, k, s, steps[0]);
      OvershootBounded(q, k, Apply(q, s, steps[0]), steps[1..]);
    }
  }

  // ------------------------------------------------------- the bound is exact

  lemma {:induction false} RunConcat(q: Quota, k: nat, s: State, a: seq<Step>, b: seq<Step>)
    requires IsRun(q, k, s, a) && IsRun(q, k, Exec(q, k, s, a), b)
    ensures IsRun(q, k, s, a + b) && Exec(q, k, s, a + b) == Exec(q, k, Exec(q, k, s, a), b)
    decreases |a|
  {
    hide Enabled, Apply, InFlight;
    if a == [] {
      assert a + b == b;
    } else {
      assert (a + b)[0] == a[0] && (a + b)[1..] == a[1..] + b;
      RunConcat(q, k, Apply(q, s, a[0]), a[1..], b);
    }
  }

  function Waiting(n: nat, rc: Request): (m: map<nat, Request>)
    ensures forall c: nat :: c in m <==> c < n
    ensures forall c :: c in m ==> m[c] == rc
  {
    if n == 0 then map[] else Waiting(n - 1, rc)[n - 1 := rc]
  }

  lemma {:induction false} WaitingInFlight(q: Quota, rows: seq<Instance>, n: nat, rc: Request)
    requires QuotaInScope(q, rc.serviceId)
    ensures InFlight(q, State(rows, Waiting(n, rc))) == n
  {
    if n == 0 {
      assert InFlightCalls(q, State(rows, Waiting(0, rc))) == {};
    } else {
      WaitingInFlight(q, rows, n - 1, rc);
      assert Waiting(n, rc) == Waiting(n - 1, rc)[n - 1 := rc];
      InFlightAdds(q, State(rows, Waiting(n - 1, rc)), n - 1, rc, State(rows, Waiting(n, rc)));
    }
  }

  /** A world in which only this quota is in force. */
  function OnlyQuota(q: Quota, rows: seq<Instance>): World {
    World([], [q], [], rows, [], Clock(0, 0, 0))
  }

  lemma GateOpen(q: Quota, rows: seq<Instance>, rc: Request)
    requires Active(q, rows) < Ceil(q.limit)
    ensures !Blocked(OnlyQuota(q, rows), rc)
  {
    var w := OnlyQuota(q, rows);
    assert Active(q, rows) as real < q.limit;
    assert forall x :: x in w.quotas ==> x == q;
  }

  /** k calls pass the gate one after another while the count is still below the limit. */
  lemma {:induction false} ManyGates(q: Quota, k: nat, rows: seq<Instance>, rc: Request, n: nat) returns (steps: seq<Step>)
    requires QuotaInScope(q, rc.serviceId) && Active(q, rows) < Ceil(q.limit) && n <= k
    ensures IsRun(q, k, State(rows, Waiting(0, rc)), steps)
    ensures Exec(q, k, State(rows, Waiting(0, rc)), steps) == State(rows, Waiting(n, rc))
  {
    hide Active, Ceil, Blocked, InFlight;
    WaitingInFlight(q, rows, n, rc);
    if n == 0 {
      steps := [];
    } else {
      var before := ManyGates(q, k, rows, rc, n - 1);
      var s := State(rows, Waiting(n - 1, rc));
      var g := Gate(n - 1, rc, OnlyQuota(q, rows));
      GateOpen(q, rows, rc);
      WaitingInFlight(q, rows, n - 1, rc);
      assert Apply(q, s, g) == State(rows, Waiting(n, rc));
      assert [g][1..] == [];
      RunConcat(q, k, State(rows, Waiting(0, rc)), before, [g]);
      steps := before + [g];
    }
  }

  /** ... and then all of them insert. */
  lemma {:induction false} ManyInserts(q: Quota, k: nat, rows: seq<Instance>, rc: Request, n: nat) returns (steps: seq<Step>, end: seq<Instance>)
    requires QuotaInScope(q, rc.serviceId) && n <= k
    ensures IsRun(q, k, State(rows, Waiting(n, rc)), steps)
    ensures Exec(q, k, State(rows, Waiting(n, rc)), steps) == State(end, Waiting(0, rc))
    ensures Active(q, end) == Active(q, rows) + n
    decreases n
  {
    hide Ceil, InFlight;
    WaitingInFlight(q, rows, n, rc);
    if n == 0 {
      steps, end := [], rows;
    } else {
      var s := State(rows, Waiting(n, rc));
      var f := Finish(n - 1, true);
      var inst := Instance(rc.serviceId, rc.owner, rc.workspace, rc.tenant, "active");
      ActiveAppends(q, rows, inst);
      assert Waiting(n, rc) - {n - 1} == Waiting(n - 1, rc);
      assert Apply(q, s, f) == State(rows + [inst], Waiting(n - 1, rc));
      var rest;
      rest, end := ManyInserts(q, k, rows + [inst], rc, n - 1);
      steps := [f] + rest;
      assert steps[1..] == rest;
    }
  }

  /** One call after another, the quota fills up to n. */
  lemma {:induction false} FillUp(q: Quota, k: nat, rc: Request, n: nat) returns (steps: seq<Step>, end: seq<Instance>)
    requires QuotaInScope(q, rc.serviceId) && k >= 1 && n <= Ceil(q.limit)
    ensures IsRun(q, k, State([], Waiting(0, rc)), steps)
    ensures Exec(q, k, State([], Waiting(0, rc)), steps) == State(end, Waiting(0, rc))
    ensures Active(q, end) == n
  {
    hide Ceil, InFlight, QuotaInScope;
    if n == 0 {
      WaitingInFlight(q, [], 0, rc);
      steps, end := [], [];
    } else {
      var before, rows := FillUp(q, k, rc, n - 1);
      steps, end := GateThenInsert(q, k, rows, rc, 1);
      RunConcat(q, k, State([], Waiting(0, rc)), before, steps);
      steps := before + steps;
    }
  }

  lemma GateThenInsert(q: Quota, k: nat, rows: seq<Instance>, rc: Request, n: nat) returns (steps: seq<Step>, end: seq<Instance>)
    requires QuotaInScope(q, rc.serviceId) && Active(q, rows) < Ceil(q.limit) && n <= k
    ensures IsRun(q, k, State(rows, Waiting(0, rc)), steps)
    ensures Exec(q, k, State(rows, Waiting(0, rc)), steps) == State(end, Waiting(0, rc))
    ensures Active(q, end) == Active(q, rows) + n
  {
    hide Ceil, InFlight, QuotaInScope, IsRun, Exec, Active;
    var gates := ManyGates(q, k, rows, rc, n);
    var inserts;
    inserts, end := ManyInserts(q, k, rows, rc, n);
    RunConcat(q, k, State(rows, Waiting(0, rc)), gates, inserts);
    steps := gates + inserts;
  }

  /** No smaller bound holds: for every positive quota and every k there is a run that ends with
      exactly ceil(L) + k - 1 active instances. */
  lemma OvershootReached(q: Quota, k: nat, rc: Request) returns (steps: seq<Step>)
    requires QuotaInScope(q, rc.serviceId) && q.limit > 0.0 && k >= 1
    ensures IsRun(q, k, State([], map[]), steps)
    ensures Active(q, Exec(q, k, State([], map[]), steps).instances) == Ceil(q.limit) + k - 1
  {
    hide InFlight, QuotaInScope, IsRun, Exec, Active;
    assert Ceil(q.limit) >= 1;
    assert Waiting(0, rc) == map[];
    var fill, rows := FillUp(q, k, rc, Ceil(q.limit) - 1);
    var more, end := GateThenInsert(q, k, rows, rc, k);
    RunConcat(q, k, State([], Waiting(0, rc)), fill, more);
    steps := fill + more;
  }
}

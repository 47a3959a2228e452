/** Two runs that leave one block in use by two workspaces: a provision overlapping a destroy, and a
    release that arrives late. */
module JobRuns {
  import opened Strings
  import opened Jobs
  import Ipam

  const BLOCK := "10.16.0.0/22"

  /** Of all jobs active at the same time, only i and j are for one workspace. */
  ghost predicate OnlyPair(s: State, i: nat, j: nat) {
    forall a, b :: Active(s, a) && Active(s, b) && s.jobs[a].ws == s.jobs[b].ws && a != b ==> (a == i && b == j) || (a == j && b == i)
  }

  ghost predicate OnlyOverlap(s: State, steps: seq<Step>, i: nat, j: nat)
    requires IsRun(s, steps)
    decreases |steps|
  {
    OnlyPair(s, i, j) && (steps != [] ==> OnlyOverlap(Apply(s, steps[0]), steps[1..], i, j))
  }

  predicate Prompt(step: Step) {
    !(step.Protocol? && step.step.Write? && step.step.fate == Ipam.Delayed)
  }

  ghost predicate Leads(s: State, steps: seq<Step>, t: State, i: nat, j: nat) {
    IsRun(s, steps) && Exec(s, steps) == t && OnlyOverlap(s, steps, i, j)
  }

  lemma One(s: State, step: Step, i: nat, j: nat)
    requires Enabled(s, step) && OnlyPair(s, i, j) && OnlyPair(Apply(s, step), i, j)
    ensures Leads(s, [step], Apply(s, step), i, j)
  {
    hide Enabled, Apply, OnlyPair;
    var t := Apply(s, step);
    OneStep(s, step, 0);
    assert [step][1..] == [];
    assert OnlyOverlap(t, [], i, j);
  }

  lemma {:induction false} Join(s: State, a: seq<Step>, t: State, b: seq<Step>, u: State, i: nat, j: nat)
    requires Leads(s, a, t, i, j) && Leads(t, b, u, i, j)
    ensures Leads(s, a + b, u, i, j)
    decreases |a|
  {
    hide Enabled, Apply, OnlyPair;
    if a == [] {
      assert a + b == b;
    } else {
      assert (a + b)[0] == a[0] && (a + b)[1..] == a[1..] + b;
      Join(Apply(s, a[0]), a[1..], t, b, u, i, j);
    }
  }

  lemma Then(s: State, before: seq<Step>, t: State, step: Step, i: nat, j: nat) returns (steps: seq<Step>, u: State)
    requires Leads(s, before, t, i, j) && Enabled(t, step) && OnlyPair(t, i, j) && OnlyPair(Apply(t, step), i, j)
    ensures u == Apply(t, step) && steps == before + [step] && Leads(s, steps, u, i, j)
  {
    hide Enabled, Apply, OnlyPair, Leads;
    u, steps := Apply(t, step), before + [step];
    One(t, step, i, j);
    Join(s, before, t, [step], u, i, j);
  }

  /** The pool states of the runs: one block, free or owned. */
  lemma OneBlock(owner: string)
    requires !Blank(owner)
    ensures Ipam.FirstFree(map[BLOCK := ""]) == BLOCK
    ensures Ipam.MayPick(map[BLOCK := ""], owner, "") && Ipam.MayPick(map[BLOCK := owner], owner, BLOCK)
    ensures Ipam.OwnsAny(map[BLOCK := owner], owner) && Ipam.ReleaseAll(map[BLOCK := owner], owner) == map[BLOCK := ""]
  {
    Ipam.BlankEmpty();
    var free: Ipam.Pool := map[BLOCK := ""];
    var held: Ipam.Pool := map[BLOCK := owner];
    assert Ipam.FreeKeys(free) == {BLOCK};
    assert Ipam.IsLeast(Ipam.FirstFree(free), Ipam.FreeKeys(free));
    assert held[BLOCK] == owner;
  }

  /** A new job of a workspace without other jobs starts to allocate. */
  lemma Begins(s: State, ws: string, k: nat, i: nat, j: nat)
    requires OnlyPair(s, i, j) && s.ipam.maxRetries == 6
    requires !Blank(ws) && k !in s.jobs && k !in s.ipam.procs
    requires "" !in s.ipam.pool && forall a :: Active(s, a) ==> s.jobs[a].ws != ws
    ensures var e := BeginProvision(k, ws, true, "", k);
      && Enabled(s, e) && OnlyPair(Apply(s, e), i, j)
      && Apply(s, e) == State(s.ipam.(procs := s.ipam.procs[k := Ipam.Proc(Ipam.Alloc(ws), Ipam.ToRead(0))]),
                              s.jobs[k := Job(ws, Provision(true, ""), Allocating(k))], s.live, s.status[ws := "provisioning"])
  {
  }

  /** It finds the block free and writes it. */
  lemma TakesFree(s: State, before: seq<Step>, t: State, ws: string, k: nat, i: nat, j: nat) returns (steps: seq<Step>, u: State)
    requires Leads(s, before, t, i, j) && OnlyPair(t, i, j) && t.ipam.pool == map[BLOCK := ""] && !Blank(ws)
    requires k in t.ipam.procs && k !in t.ipam.late && t.ipam.procs[k] == Ipam.Proc(Ipam.Alloc(ws), Ipam.ToRead(0))
    ensures Leads(s, steps, u, i, j) && OnlyPair(u, i, j)
    ensures steps == before + [Protocol(Ipam.Read(k, true, "")), Protocol(Ipam.Write(k, Ipam.Answered))]
    ensures u.jobs == t.jobs && u.live == t.live && u.ipam.pool == map[BLOCK := ws] && u.ipam.late == t.ipam.late
    ensures u.ipam.procs == t.ipam.procs[k := Ipam.Proc(Ipam.Alloc(ws), Ipam.Done(Ipam.Got(BLOCK)))]
    ensures u.ipam.maxRetries == t.ipam.maxRetries
  {
    hide Leads;
    OneBlock(ws);
    var r1, t1 := Then(s, before, t, Protocol(Ipam.Read(k, true, "")), i, j);
    steps, u := Then(s, r1, t1, Protocol(Ipam.Write(k, Ipam.Answered)), i, j);
    assert steps == before + [Protocol(Ipam.Read(k, true, "")), Protocol(Ipam.Write(k, Ipam.Answered))];
  }

  lemma TakesBlock(s: State, ws: string, k: nat, i: nat, j: nat) returns (steps: seq<Step>, t: State)
    requires OnlyPair(s, i, j) && s.ipam.pool == map[BLOCK := ""] && s.ipam.maxRetries == 6
    requires !Blank(ws) && k !in s.jobs && k !in s.ipam.procs && k !in s.ipam.late
    requires forall a :: Active(s, a) ==> s.jobs[a].ws != ws
    ensures Leads(s, steps, t, i, j) && OnlyPair(t, i, j) && forall st :: st in steps ==> Prompt(st)
    ensures t.jobs == s.jobs[k := Job(ws, Provision(true, ""), Allocating(k))] && t.live == s.live
    ensures t.ipam.procs == s.ipam.procs[k := Ipam.Proc(Ipam.Alloc(ws), Ipam.Done(Ipam.Got(BLOCK)))]
    ensures t.ipam.pool == map[BLOCK := ws] && t.ipam.late == s.ipam.late && t.ipam.maxRetries == 6
  {
    hide Leads, Apply, Enabled, OnlyPair;
    Begins(s, ws, k, i, j);
    var e := BeginProvision(k, ws, true, "", k);
    One(s, e, i, j);
    steps, t := TakesFree(s, [e], Apply(s, e), ws, k, i, j);
  }

  /** ... and receives it. */
  lemma ReceivesBlock(s: State, before: seq<Step>, t: State, ws: string, k: nat, i: nat, j: nat) returns (steps: seq<Step>, u: State)
    requires Leads(s, before, t, i, j) && OnlyPair(t, i, j)
    requires k in t.jobs && t.jobs[k] == Job(ws, Provision(true, ""), Allocating(k))
    requires k in t.ipam.procs && t.ipam.procs[k].phase == Ipam.Done(Ipam.Got(BLOCK))
    ensures Leads(s, steps, u, i, j) && OnlyPair(u, i, j) && steps == before + [AllocateReturns(k)]
    ensures u == t.(jobs := t.jobs[k := Job(ws, Provision(true, ""), Provisioning(BLOCK))], live := t.live + {(ws, BLOCK)})
  {
    hide Leads;
    steps, u := Then(s, before, t, AllocateReturns(k), i, j);
  }

  /** A teardown of workspace "a" succeeds, as the run's job 1. */
  lemma TornDown(s: State, i: nat, j: nat) returns (steps: seq<Step>, t: State)
    requires "" !in s.ipam.pool && OnlyPair(s, i, j) && 1 !in s.jobs && 1 !in s.ipam.procs && s.ipam.maxRetries == 6
    requires forall a :: Active(s, a) && s.jobs[a].ws == "a" ==> (a == i && 1 == j) || (a == j && 1 == i)
    ensures Leads(s, steps, t, i, j) && OnlyPair(t, i, j) && forall st :: st in steps ==> Prompt(st)
    ensures t.jobs == s.jobs[1 := Job("a", Destroy, Releasing(1))] && t.live == Forget(s.live, "a")
    ensures t.ipam == s.ipam.(procs := s.ipam.procs[1 := Ipam.Proc(Ipam.Free("a"), Ipam.ToRead(0))])
  {
    hide Leads;
    var e1 := BeginDestroy(1, "a");
    One(s, e1, i, j);
    steps, t := Then(s, [e1], Apply(s, e1), ProviderDestroyed(1, true, 1), i, j);
    assert t.jobs == s.jobs[1 := Job("a", Destroy, Releasing(1))];
  }

  lemma ReleaseReads(s: State, before: seq<Step>, t: State, i: nat, j: nat) returns (steps: seq<Step>, u: State)
    requires Leads(s, before, t, i, j) && OnlyPair(t, i, j)
    requires t.ipam.pool == map[BLOCK := "a"] && 1 in t.ipam.procs
    requires t.ipam.procs[1] == Ipam.Proc(Ipam.Free("a"), Ipam.ToRead(0))
    ensures Leads(s, steps, u, i, j) && OnlyPair(u, i, j) && steps == before + [Protocol(Ipam.Read(1, true, ""))]
    ensures u == t.(ipam := t.ipam.(procs := t.ipam.procs[1 :=
                   Ipam.Proc(Ipam.Free("a"), Ipam.ToWrite(0, map[BLOCK := ""], Ipam.Freed, t.ipam.version))]))
  {
    hide Leads;
    OneBlock("a");
    steps, u := Then(s, before, t, Protocol(Ipam.Read(1, true, "")), i, j);
  }

  lemma ReleaseWrites(s: State, before: seq<Step>, t: State, fate: Ipam.Fate, i: nat, j: nat) returns (steps: seq<Step>, u: State)
    requires Leads(s, before, t, i, j) && OnlyPair(t, i, j) && (fate == Ipam.Answered || fate == Ipam.Delayed)
    requires 1 in t.ipam.procs && 1 !in t.ipam.late
    requires t.ipam.procs[1] == Ipam.Proc(Ipam.Free("a"), Ipam.ToWrite(0, map[BLOCK := ""], Ipam.Freed, t.ipam.version))
    ensures Leads(s, steps, u, i, j) && OnlyPair(u, i, j) && steps == before + [Protocol(Ipam.Write(1, fate))]
    ensures u.jobs == t.jobs && u.live == t.live && u.ipam.maxRetries == t.ipam.maxRetries
    ensures u.ipam.procs == t.ipam.procs[1 := Ipam.Proc(Ipam.Free("a"), Ipam.Done(if fate == Ipam.Answered then Ipam.Freed else Ipam.WriteFailed))]
    ensures if fate == Ipam.Answered then u.ipam.pool == map[BLOCK := ""] && u.ipam.late == t.ipam.late
            else u.ipam.pool == t.ipam.pool && u.ipam.late == t.ipam.late[1 := Ipam.Straggler(map[BLOCK := ""], Ipam.Freed, u.ipam.version)]
  {
    hide Leads;
    steps, u := Then(s, before, t, Protocol(Ipam.Write(1, fate)), i, j);
  }

  /** Its release reads the pool and sends its write, which arrives or is held up. */
  lemma ReleaseSent(s: State, before: seq<Step>, t: State, fate: Ipam.Fate, i: nat, j: nat) returns (steps: seq<Step>, u: State)
    requires Leads(s, before, t, i, j) && OnlyPair(t, i, j)
    requires t.ipam.pool == map[BLOCK := "a"] && 1 in t.ipam.procs && 1 !in t.ipam.late
    requires t.ipam.procs[1] == Ipam.Proc(Ipam.Free("a"), Ipam.ToRead(0)) && (fate == Ipam.Answered || fate == Ipam.Delayed)
    ensures Leads(s, steps, u, i, j) && OnlyPair(u, i, j)
    ensures steps == before + [Protocol(Ipam.Read(1, true, ""))] + [Protocol(Ipam.Write(1, fate))]
    ensures u.jobs == t.jobs && u.live == t.live && u.ipam.maxRetries == t.ipam.maxRetries
    ensures u.ipam.procs == t.ipam.procs[1 := Ipam.Proc(Ipam.Free("a"), Ipam.Done(if fate == Ipam.Answered then Ipam.Freed else Ipam.WriteFailed))]
    ensures if fate == Ipam.Answered then u.ipam.pool == map[BLOCK := ""] && u.ipam.late == t.ipam.late
            else u.ipam.pool == t.ipam.pool && u.ipam.late == t.ipam.late[1 := Ipam.Straggler(map[BLOCK := ""], Ipam.Freed, u.ipam.version)]
  {
    hide Leads, OnlyPair;
    var r, v := ReleaseReads(s, before, t, i, j);
    steps, u := ReleaseWrites(s, r, v, fate, i, j);
  }

  /** A further workspace takes the block and receives it. */
  lemma AnotherTakes(s: State, before: seq<Step>, t: State, k: nat, i: nat, j: nat) returns (steps: seq<Step>, u: State)
    requires Leads(s, before, t, i, j) && OnlyPair(t, i, j) && t.ipam.pool == map[BLOCK := ""] && t.ipam.maxRetries == 6
    requires k !in t.jobs && k !in t.ipam.procs && k !in t.ipam.late && (forall a :: Active(t, a) ==> t.jobs[a].ws != "b")
    ensures Leads(s, steps, u, i, j) && u.live == t.live + {("b", BLOCK)} && before <= steps
    ensures forall st :: st in steps[|before|..] ==> Prompt(st)
    ensures forall a :: a in t.jobs ==> a in u.jobs && u.jobs[a] == t.jobs[a]
  {
    hide Leads;
    var more, v := TakesBlock(t, "b", k, i, j);
    Join(s, before, t, more, v, i, j);
    steps, u := ReceivesBlock(s, before + more, v, "b", k, i, j);
    assert steps[|before|..] == more + [AllocateReturns(k)];
  }

  lemma Start() returns (s: State)
    ensures Initial(s) && s == State(Ipam.State(map[BLOCK := ""], 1, map[], map[], 6), map[], {}, map[])
  {
    s := State(Ipam.State(map[BLOCK := ""], 1, map[], map[], 6), map[], {}, map[]);
  }

  lemma Overlapping() returns (s: State, steps: seq<Step>, t: State)
    ensures Initial(s) && Leads(s, steps, t, 0, 1) && OnlyPair(t, 0, 1) && forall st :: st in steps ==> Prompt(st)
    ensures t.jobs == map[0 := Job("a", Provision(true, ""), Provisioning(BLOCK)), 1 := Job("a", Destroy, Releasing(1))]
    ensures t.ipam.pool == map[BLOCK := ""] && t.ipam.procs.Keys == {0, 1} && t.ipam.late == map[] && t.ipam.maxRetries == 6
    ensures ("a", BLOCK) in t.live
  {
    hide Apply, Enabled, Initial, Leads;
    s := Start();
    var r1, s1 := TakesBlock(s, "a", 0, 0, 1);
    var down, s2 := TornDown(s1, 0, 1);
    Join(s, r1, s1, down, s2, 0, 1);
    var r3, s3 := ReceivesBlock(s, r1 + down, s2, "a", 0, 0, 1);
    steps, t := ReleaseSent(s, r3, s3, Ipam.Answered, 0, 1);
  }

  /** A run without any late write, in which the only jobs of one workspace that are ever active
      together are one provision and one destroy of workspace "a". It leaves one block in use by "a"
      and "b". So the proviso of the safety theorems is needed for that kind of overlap, and only that
      kind is excluded by it. */
  lemma OverlapSharesBlock() returns (s: State, steps: seq<Step>)
    ensures Initial(s) && IsRun(s, steps) && !Orderly(s, steps)
    ensures forall st :: st in steps ==> Prompt(st)
    ensures OnlyOverlap(s, steps, 0, 1)
    ensures var t := Exec(s, steps);
      && 0 in t.jobs && t.jobs[0].ws == "a" && t.jobs[0].kind.Provision?
      && 1 in t.jobs && t.jobs[1].ws == "a" && t.jobs[1].kind.Destroy?
      && ("a", BLOCK) in t.live && ("b", BLOCK) in t.live
  {
    hide Apply, Enabled, Initial, Orderly, Leads, OnlyPair;
    var r4, s4, t;
    s, r4, s4 := Overlapping();
    steps, t := AnotherTakes(s, r4, s4, 2, 0, 1);
    assert steps == r4 + steps[|r4|..];
    Unsafe(s, steps, t, 0, 1);
  }

  lemma Unsafe(s: State, steps: seq<Step>, t: State, i: nat, j: nat)
    requires Initial(s) && Leads(s, steps, t, i, j) && ("a", BLOCK) in t.live && ("b", BLOCK) in t.live
    ensures IsRun(s, steps) && OnlyOverlap(s, steps, i, j) && Exec(s, steps) == t && !Orderly(s, steps)
  {
    hide Apply, Enabled, Initial, Orderly, OnlyPair;
    if Orderly(s, steps) {
      NoSharedBlock(s, steps);
    }
  }

  lemma MarkedDestroyed(s: State, before: seq<Step>, t: State) returns (steps: seq<Step>, u: State)
    requires Leads(s, before, t, 0, 0) && OnlyPair(t, 0, 0)
    requires t.jobs == map[0 := Job("a", Provision(true, ""), Finished), 1 := Job("a", Destroy, Releasing(1))]
    requires 1 in t.ipam.procs && t.ipam.procs[1].phase == Ipam.Done(Ipam.WriteFailed)
    ensures Leads(s, steps, u, 0, 0) && OnlyPair(u, 0, 0) && u.ipam == t.ipam && u.live == t.live
    ensures u.jobs == map[0 := Job("a", Provision(true, ""), Finished), 1 := Job("a", Destroy, Finished)]
  {
    hide Leads;
    steps, u := Then(s, before, t, ReleaseReturns(1), 0, 0);
  }

  lemma FindsItsBlock(s: State, before: seq<Step>, t: State) returns (steps: seq<Step>, u: State)
    requires Leads(s, before, t, 0, 0) && OnlyPair(t, 0, 0) && t.ipam.pool == map[BLOCK := "a"]
    requires 2 in t.ipam.procs && t.ipam.procs[2] == Ipam.Proc(Ipam.Alloc("a"), Ipam.ToRead(0))
    ensures Leads(s, steps, u, 0, 0) && OnlyPair(u, 0, 0) && u.jobs == t.jobs && u.live == t.live
    ensures u.ipam == t.ipam.(procs := t.ipam.procs[2 := Ipam.Proc(Ipam.Alloc("a"), Ipam.Done(Ipam.Got(BLOCK)))])
  {
    hide Leads;
    OneBlock("a");
    steps, u := Then(s, before, t, Protocol(Ipam.Read(2, true, BLOCK)), 0, 0);
  }

  lemma BeginsAgain(s: State, before: seq<Step>, t: State) returns (steps: seq<Step>, u: State)
    requires Leads(s, before, t, 0, 0) && OnlyPair(t, 0, 0) && t.ipam.maxRetries == 6 && "" !in t.ipam.pool
    requires t.jobs == map[0 := Job("a", Provision(true, ""), Finished), 1 := Job("a", Destroy, Finished)]
    requires 2 !in t.ipam.procs
    ensures Leads(s, steps, u, 0, 0) && OnlyPair(u, 0, 0) && u.live == t.live
    ensures u.jobs == t.jobs[2 := Job("a", Provision(true, ""), Allocating(2))]
    ensures u.ipam == t.ipam.(procs := t.ipam.procs[2 := Ipam.Proc(Ipam.Alloc("a"), Ipam.ToRead(0))])
  {
    hide Leads, Apply, Enabled, OnlyPair;
    Begins(t, "a", 2, 0, 0);
    steps, u := Then(s, before, t, BeginProvision(2, "a", true, "", 2), 0, 0);
  }

  /** Between the teardown and the late arrival, workspace "a" is marked destroyed and then provisioned
      again with the block it still holds. */
  lemma ProvisionedAgain(s: State, before: seq<Step>, t: State) returns (steps: seq<Step>, u: State)
    requires Leads(s, before, t, 0, 0) && OnlyPair(t, 0, 0)
    requires t.jobs == map[0 := Job("a", Provision(true, ""), Finished), 1 := Job("a", Destroy, Releasing(1))]
    requires t.ipam.pool == map[BLOCK := "a"] && t.ipam.procs.Keys == {0, 1} && t.ipam.maxRetries == 6
    requires t.ipam.procs[1].phase == Ipam.Done(Ipam.WriteFailed)
    ensures Leads(s, steps, u, 0, 0) && OnlyPair(u, 0, 0) && u.live == t.live + {("a", BLOCK)}
    ensures u.ipam.pool == t.ipam.pool && u.ipam.version == t.ipam.version && u.ipam.late == t.ipam.late && u.ipam.maxRetries == 6
    ensures u.ipam.procs.Keys == {0, 1, 2} && u.ipam.procs[1] == t.ipam.procs[1]
    ensures u.jobs == map[0 := Job("a", Provision(true, ""), Finished), 1 := Job("a", Destroy, Finished),
                          2 := Job("a", Provision(true, ""), Provisioning(BLOCK))]
  {
    hide Leads, Apply, Enabled, OnlyPair, Active;
    var r1, t1 := MarkedDestroyed(s, before, t);
    var r2, t2 := BeginsAgain(s, r1, t1);
    var r3, t3 := FindsItsBlock(s, r2, t2);
    steps, u := ReceivesBlock(s, r3, t3, "a", 2, 0, 0);
  }

  lemma FinishesFirst(s: State, before: seq<Step>, t: State) returns (steps: seq<Step>, u: State)
    requires Leads(s, before, t, 0, 0) && OnlyPair(t, 0, 0)
    requires t.jobs == map[0 := Job("a", Provision(true, ""), Provisioning(BLOCK))]
    ensures Leads(s, steps, u, 0, 0) && OnlyPair(u, 0, 0)
    ensures u.jobs == map[0 := Job("a", Provision(true, ""), Finished)] && u.ipam == t.ipam
  {
    hide Leads;
    steps, u := Then(s, before, t, ProviderProvisioned(0, true), 0, 0);
  }

  lemma Lands(s: State, before: seq<Step>, t: State) returns (steps: seq<Step>, u: State)
    requires Leads(s, before, t, 0, 0) && OnlyPair(t, 0, 0)
    requires 1 in t.ipam.procs && 1 in t.ipam.late && t.ipam.late[1] == Ipam.Straggler(map[BLOCK := ""], Ipam.Freed, t.ipam.version)
    ensures Leads(s, steps, u, 0, 0) && OnlyPair(u, 0, 0) && u.jobs == t.jobs && u.live == t.live
    ensures u.ipam.pool == map[BLOCK := ""] && u.ipam.procs.Keys == t.ipam.procs.Keys && u.ipam.late == t.ipam.late - {1}
    ensures u.ipam.maxRetries == t.ipam.maxRetries
  {
    hide Leads;
    steps, u := Then(s, before, t, Protocol(Ipam.Land(1)), 0, 0);
  }

  /** A run in which no two jobs of one workspace are ever active together, but a release write of "a"
      arrives after its job has given up on it and "a" has been provisioned again: reusing the block
      did not change the pool's version, so the write still matches. It too leaves one block in use by
      "a" and "b". */
  lemma LateReleaseSharesBlock() returns (s: State, steps: seq<Step>)
    ensures Initial(s) && IsRun(s, steps) && !Orderly(s, steps)
    ensures OnlyOverlap(s, steps, 0, 0)
    ensures ("a", BLOCK) in Exec(s, steps).live && ("b", BLOCK) in Exec(s, steps).live
  {
    hide Apply, Enabled, Initial, Orderly, Leads;
    s := Start();
    var r1, s1 := TakesBlock(s, "a", 0, 0, 0);
    var r2, s2 := ReceivesBlock(s, r1, s1, "a", 0, 0, 0);
    var r3, s3 := FinishesFirst(s, r2, s2);
    var down, s4 := TornDown(s3, 0, 0);
    Join(s, r3, s3, down, s4, 0, 0);
    var r5, s5 := ReleaseSent(s, r3 + down, s4, Ipam.Delayed, 0, 0);
    var r6, s6 := ProvisionedAgain(s, r5, s5);
    var r7, s7 := Lands(s, r6, s6);
    var t;
    steps, t := AnotherTakes(s, r7, s7, 3, 0, 0);
    Unsafe(s, steps, t, 0, 0);
  }
}

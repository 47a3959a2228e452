/** All account jobs at once, interleaved with the pool protocol: when a block may be used again. */
module Jobs {
  import opened Strings
  import opened Account
  import Ipam

  datatype Kind = Provision(createVPC: bool, explicit: string) | Destroy

  datatype Phase =
    | Allocating(call: nat)
    | Provisioning(cidr: string)
    | Destroying
    | Releasing(call: nat)
    | Finished
    | Crashed

  datatype Job = Job(ws: string, kind: Kind, phase: Phase)

  /** `live` holds every pool block handed to a provider-side provision of a workspace since that
      workspace's last successful provider-side destroy. */
  datatype State = State(
    ipam: Ipam.State, jobs: map<nat, Job>, live: set<(string, string)>, status: map<string, string>)

  datatype Step =
    | BeginProvision(job: nat, ws: string, createVPC: bool, explicit: string, call: nat)
    | AllocateReturns(job: nat)
    | ProviderProvisioned(job: nat, ok: bool)
    | BeginDestroy(job: nat, ws: string)
    | ProviderDestroyed(job: nat, ok: bool, call: nat)
    | ReleaseReturns(job: nat)
    | Crash(job: nat)
    | Protocol(step: Ipam.Step)

  predicate Active(s: State, j: nat) {
    j in s.jobs && !s.jobs[j].phase.Finished? && !s.jobs[j].phase.Crashed?
  }

  predicate InPhase(s: State, j: nat) {
    Active(s, j) && (s.jobs[j].phase.Allocating? || s.jobs[j].phase.Releasing?)
  }

  predicate CallDone(s: State, j: nat) {
    && InPhase(s, j) && s.jobs[j].phase.call in s.ipam.procs
    && s.ipam.procs[s.jobs[j].phase.call].phase.Done?
  }

  function Answer(s: State, j: nat): Ipam.Result
    requires CallDone(s, j)
  {
    s.ipam.procs[s.jobs[j].phase.call].phase.result
  }

  predicate IsProtocol(st: Ipam.Step) {
    st.Read? || st.Write? || st.Land?
  }

  ghost predicate Enabled(s: State, step: Step) {
    match step
    case BeginProvision(j, ws, createVPC, explicit, call) =>
      j !in s.jobs && !Blank(ws) && (createVPC && explicit == "" ==> Ipam.Enabled(s.ipam, Ipam.Start(call, Ipam.Alloc(ws))))
    case AllocateReturns(j) => CallDone(s, j) && s.jobs[j].phase.Allocating?
    case ProviderProvisioned(j, _) => j in s.jobs && s.jobs[j].phase.Provisioning?
    case BeginDestroy(j, ws) => j !in s.jobs && !Blank(ws)
    case ProviderDestroyed(j, ok, call) => j in s.jobs && s.jobs[j].phase.Destroying? && (ok ==> Ipam.Enabled(s.ipam, Ipam.Start(call, Ipam.Free(s.jobs[j].ws))))
    case ReleaseReturns(j) => CallDone(s, j) && s.jobs[j].phase.Releasing?
    case Crash(j) => Active(s, j) && (InPhase(s, j) ==> s.jobs[j].phase.call in s.ipam.procs)
    case Protocol(st) => IsProtocol(st) && Ipam.Enabled(s.ipam, st)
  }

  function SetPhase(s: State, j: nat, phase: Phase): map<nat, Job>
    requires j in s.jobs
  {
    s.jobs[j := s.jobs[j].(phase := phase)]
  }

  function Forget(live: set<(string, string)>, ws: string): set<(string, string)> {
    set b | b in live && b.0 != ws
  }

  ghost function Apply(s: State, step: Step): State
    requires Enabled(s, step)
  {
    match step
    case BeginProvision(j, ws, createVPC, explicit, call) =>
      var allocate := createVPC && explicit == "";
      s.(jobs := s.jobs[j := Job(ws, Provision(createVPC, explicit), if allocate then Allocating(call) else Provisioning(explicit))],
         ipam := if allocate then Ipam.Apply(s.ipam, Ipam.Start(call, Ipam.Alloc(ws))) else s.ipam,
         status := s.status[ws := "provisioning"])
    case AllocateReturns(j) =>
      var ws, r := s.jobs[j].ws, Answer(s, j);
      if r.Got? then s.(jobs := SetPhase(s, j, Provisioning(r.cidr)), live := s.live + {(ws, r.cidr)})
      else s.(jobs := SetPhase(s, j, Finished), status := s.status[ws := "failed"])
    case ProviderProvisioned(j, ok) =>
      s.(jobs := SetPhase(s, j, Finished), status := s.status[s.jobs[j].ws := if ok then "ready" else "failed"])
    case BeginDestroy(j, ws) =>
      s.(jobs := s.jobs[j := Job(ws, Destroy, Destroying)], status := s.status[ws := "destroying"])
    case ProviderDestroyed(j, ok, call) =>
      var ws := s.jobs[j].ws;
      if !ok then s.(jobs := SetPhase(s, j, Finished), status := s.status[ws := "failed"])
      else s.(jobs := SetPhase(s, j, Releasing(call)), live := Forget(s.live, ws),
              ipam := Ipam.Apply(s.ipam, Ipam.Start(call, Ipam.Free(ws))))
    case ReleaseReturns(j) =>
      s.(jobs := SetPhase(s, j, Finished), status := s.status[s.jobs[j].ws := "destroyed"])
    case Crash(j) =>
      s.(jobs := SetPhase(s, j, Crashed),
         ipam := if InPhase(s, j) && !CallDone(s, j) then Ipam.Apply(s.ipam, Ipam.Die(s.jobs[j].phase.call)) else s.ipam)
    case Protocol(st) => s.(ipam := Ipam.Apply(s.ipam, st))
  }

  ghost predicate IsRun(s: State, steps: seq<Step>)
    decreases |steps|
  {
    steps != [] ==> Enabled(s, steps[0]) && IsRun(Apply(s, steps[0]), steps[1..])
  }

  ghost function Exec(s: State, steps: seq<Step>): State
    requires IsRun(s, steps)
    decreases |steps|
  {
    if steps == [] then s else Exec(Apply(s, steps[0]), steps[1..])
  }

  // ------------------------------------------------------------ the proviso

  predicate Provisions(s: State, j: nat, ws: string) {
    Active(s, j) && s.jobs[j].ws == ws && s.jobs[j].kind.Provision?
  }

  predicate Destroys(s: State, j: nat, ws: string) {
    Active(s, j) && s.jobs[j].ws == ws && s.jobs[j].kind.Destroy?
  }

  /** A release that was given up on and whose write may still reach the store. */
  predicate ReleaseLate(s: State, id: nat, ws: string) {
    id in s.ipam.late && id in s.ipam.procs && s.ipam.procs[id].call == Ipam.Free(ws)
  }

  /** No provision of a workspace is active together with a destroy of it, or with a late release of
      it. Provisions may overlap provisions, and destroys destroys. */
  ghost predicate NoOverlap(s: State) {
    && (forall i, j :: Active(s, i) && Provisions(s, i, s.jobs[i].ws) ==> !Destroys(s, j, s.jobs[i].ws))
    && (forall i, id :: Active(s, i) && Provisions(s, i, s.jobs[i].ws) ==> !ReleaseLate(s, id, s.jobs[i].ws))
  }

  ghost predicate Orderly(s: State, steps: seq<Step>)
    requires IsRun(s, steps)
    decreases |steps|
  {
    NoOverlap(s) && (steps != [] ==> Orderly(Apply(s, steps[0]), steps[1..]))
  }

  // ---------------------------------------------------------------- safety

  /** Job j is the one waiting for pool call id. */
  ghost predicate WaitsFor(s: State, j: nat, id: nat) {
    && InPhase(s, j) && s.jobs[j].phase.call == id && id in s.ipam.procs
    && s.ipam.procs[id].call == if s.jobs[j].phase.Allocating? then Ipam.Alloc(s.jobs[j].ws) else Ipam.Free(s.jobs[j].ws)
  }

  ghost predicate Owns(s: State, ws: string, c: string) {
    Ipam.Held(s.ipam.pool, c) && s.ipam.pool[c] == ws
  }

  predicate UsesNone(s: State, ws: string) {
    forall b :: b in s.live ==> b.0 != ws
  }

  ghost predicate JobOk(s: State, j: nat)
    requires Active(s, j)
  {
    var job := s.jobs[j];
    && !Blank(job.ws)
    && (InPhase(s, j) ==> WaitsFor(s, j, job.phase.call))
    && (job.kind.Provision? <==> job.phase.Allocating? || job.phase.Provisioning?)
    && (job.phase.Allocating? && CallDone(s, j) && Answer(s, j).Got? ==> Owns(s, job.ws, Answer(s, j).cidr))
    && (job.phase.Releasing? ==> UsesNone(s, job.ws))
    && job.ws in s.status
    && (job.kind.Provision? ==> s.status[job.ws] != "destroyed")
  }

  ghost predicate CallsWaitedFor(s: State) {
    && (forall id :: id in s.ipam.procs && !s.ipam.procs[id].phase.Done? ==> exists j :: WaitsFor(s, j, id))
    && (forall i, j :: InPhase(s, i) && InPhase(s, j) && s.jobs[i].phase.call == s.jobs[j].phase.call ==> i == j)
  }

  ghost predicate LiveOk(s: State) {
    && (forall b :: b in s.live ==> Owns(s, b.0, b.1) && b.0 in s.status && s.status[b.0] != "destroyed")
    && (forall id, ws :: ReleaseLate(s, id, ws) ==> UsesNone(s, ws))
  }

  ghost predicate Safe(s: State) {
    && Ipam.Inv(s.ipam) && Ipam.Exclusive(s.ipam.pool)
    && LiveOk(s) && CallsWaitedFor(s)
    && (forall j :: Active(s, j) ==> JobOk(s, j))
  }

  ghost predicate Initial(s: State) {
    && s.jobs == map[] && s.live == {} && s.ipam.procs == map[] && s.ipam.late == map[]
    && Ipam.Exclusive(s.ipam.pool)
  }

  /** A pool step on behalf of a workspace, and the one that takes its blocks away. */
  ghost predicate Frees(s: State, step: Step, ws: string) {
    && step.Protocol? && Ipam.Commits(s.ipam, step.step)
    && step.step.id in s.ipam.procs && s.ipam.procs[step.step.id].call == Ipam.Free(ws)
  }

  /** A held block stays its owner's unless its owner's release is applied. */
  lemma ProtocolStep(s: State, st: Ipam.Step, ws: string, c: string)
    requires Ipam.Inv(s.ipam) && Enabled(s, Protocol(st)) && Owns(s, ws, c)
    ensures Owns(Apply(s, Protocol(st)), ws, c) <==> !Frees(s, Protocol(st), ws)
  {
    Ipam.StepSimulates(s.ipam, st);
    var log := Ipam.Decided(s.ipam, st);
    if log != [] {
      assert log[1..] == [];
      Ipam.EffectKeepsOwners(s.ipam.pool, s.ipam.procs[st.id].call);
      if s.ipam.procs[st.id].call == Ipam.Free(ws) {
        assert Ipam.OwnsAny(s.ipam.pool, ws);
      }
    }
  }

  /** A release is applied only for a destroy job that waits for it, or late. */
  lemma WhoFrees(s: State, st: Ipam.Step, ws: string)
    requires Safe(s) && Enabled(s, Protocol(st))
    ensures Frees(s, Protocol(st), ws) ==>
              ReleaseLate(s, st.id, ws) || exists j :: Active(s, j) && s.jobs[j].phase.Releasing? && s.jobs[j].ws == ws
  {
    if Frees(s, Protocol(st), ws) && !ReleaseLate(s, st.id, ws) {
      var j :| WaitsFor(s, j, st.id);
      assert Active(s, j) && s.jobs[j].phase.Releasing?;
    }
  }

  lemma LiveBlockStays(s: State, st: Ipam.Step, b: (string, string))
    requires Safe(s) && Enabled(s, Protocol(st)) && b in s.live
    ensures Owns(Apply(s, Protocol(st)), b.0, b.1)
  {
    hide Apply, Frees;
    ProtocolStep(s, st, b.0, b.1);
    WhoFrees(s, st, b.0);
    forall j | Active(s, j) && s.jobs[j].phase.Releasing? ensures UsesNone(s, s.jobs[j].ws) {
      assert JobOk(s, j);
    }
  }

  /** The block an allocation returns belongs to its workspace at that moment. */
  lemma AllocationOwned(s: State, st: Ipam.Step, j: nat)
    requires Safe(s) && Enabled(s, Protocol(st)) && WaitsFor(s, j, st.id) && s.jobs[j].phase.Allocating?
    requires !s.ipam.procs[st.id].phase.Done?
    requires CallDone(Apply(s, Protocol(st)), j) && Answer(Apply(s, Protocol(st)), j).Got?
    ensures Owns(Apply(s, Protocol(st)), s.jobs[j].ws, Answer(Apply(s, Protocol(st)), j).cidr)
  {
    Ipam.StepSimulates(s.ipam, st);
    assert JobOk(s, j);
    assert Ipam.PhaseOk(s.ipam, s.ipam.procs[st.id]);
    if st.Read? {
      Ipam.DecideIsAtomic(s.ipam.pool, s.ipam.procs[st.id].call, st.pick);
    }
  }

  lemma ProtocolKeepsJob(s: State, st: Ipam.Step, j: nat)
    requires Safe(s) && NoOverlap(s) && Enabled(s, Protocol(st)) && Active(s, j)
    ensures JobOk(Apply(s, Protocol(st)), j)
  {
    var t := Apply(s, Protocol(st));
    assert JobOk(s, j);
    if t.jobs[j].phase.Allocating? && CallDone(t, j) && Answer(t, j).Got? {
      if CallDone(s, j) {
        var ws, c := s.jobs[j].ws, Answer(s, j).cidr;
        ProtocolStep(s, st, ws, c);
        WhoFrees(s, st, ws);
        assert Provisions(s, j, ws);
        forall i | Active(s, i) && s.jobs[i].phase.Releasing? ensures Destroys(s, i, s.jobs[i].ws) {
          assert JobOk(s, i);
        }
      } else {
        AllocationOwned(s, st, j);
      }
    }
  }

  lemma ProtocolKeepsLive(s: State, st: Ipam.Step)
    requires Safe(s) && Enabled(s, Protocol(st))
    ensures LiveOk(Apply(s, Protocol(st)))
  {
    var t := Apply(s, Protocol(st));
    forall b | b in t.live ensures Owns(t, b.0, b.1) {
      LiveBlockStays(s, st, b);
    }
    forall id, ws | ReleaseLate(t, id, ws) ensures UsesNone(t, ws) {
      if !ReleaseLate(s, id, ws) {
        var j :| WaitsFor(s, j, id);
        assert JobOk(s, j);
      }
    }
  }

  lemma ProtocolKeepsWaiting(s: State, st: Ipam.Step)
    requires Safe(s) && Enabled(s, Protocol(st))
    ensures CallsWaitedFor(Apply(s, Protocol(st)))
  {
    var t := Apply(s, Protocol(st));
    forall id | id in t.ipam.procs && !t.ipam.procs[id].phase.Done? ensures exists j :: WaitsFor(t, j, id) {
      var j :| WaitsFor(s, j, id);
      assert WaitsFor(t, j, id);
    }
  }

  lemma ProtocolKeepsSafe(s: State, st: Ipam.Step)
    requires Safe(s) && NoOverlap(s) && Enabled(s, Protocol(st))
    ensures Safe(Apply(s, Protocol(st)))
  {
    hide LiveOk, CallsWaitedFor, JobOk, NoOverlap;
    var t := Apply(s, Protocol(st));
    Ipam.StepSimulates(s.ipam, st);
    var log := Ipam.Decided(s.ipam, st);
    if log != [] {
      assert log[1..] == [];
      Ipam.EffectKeepsOwners(s.ipam.pool, s.ipam.procs[st.id].call);
    }
    ProtocolKeepsLive(s, st);
    ProtocolKeepsWaiting(s, st);
    forall j | Active(t, j) ensures JobOk(t, j) {
      ProtocolKeepsJob(s, st, j);
    }
  }

  /** A job step leaves the pool and the late writes alone; the only pool calls it touches are its own job's. */
  lemma JobStepPool(s: State, step: Step)
    requires Safe(s) && Enabled(s, step) && !step.Protocol?
    ensures Ipam.Inv(Apply(s, step).ipam) && Apply(s, step).ipam.pool == s.ipam.pool && Apply(s, step).ipam.late == s.ipam.late
    ensures forall id :: id in s.ipam.procs ==> id in Apply(s, step).ipam.procs && Apply(s, step).ipam.procs[id].call == s.ipam.procs[id].call
    ensures forall id :: id in s.ipam.procs && !(step.Crash? && InPhase(s, step.job) && s.jobs[step.job].phase.call == id)
              ==> Apply(s, step).ipam.procs[id] == s.ipam.procs[id]
  {
    if step.BeginProvision? && step.createVPC && step.explicit == "" {
      Ipam.StepSimulates(s.ipam, Ipam.Start(step.call, Ipam.Alloc(step.ws)));
    } else if step.ProviderDestroyed? && step.ok {
      Ipam.StepSimulates(s.ipam, Ipam.Start(step.call, Ipam.Free(s.jobs[step.job].ws)));
    } else if step.Crash? && InPhase(s, step.job) && !CallDone(s, step.job) {
      Ipam.StepSimulates(s.ipam, Ipam.Die(s.jobs[step.job].phase.call));
    }
  }

  lemma OwnJobOk(s: State, step: Step)
    requires Safe(s) && Enabled(s, step) && !step.Protocol?
    requires Active(Apply(s, step), step.job)
    ensures JobOk(Apply(s, step), step.job)
  {
    JobStepPool(s, step);
    assert Active(s, step.job) ==> JobOk(s, step.job);
    assert |"destroyed"| == 9 && |"provisioning"| == 12;
  }

  lemma OtherJobOk(s: State, step: Step, j: nat)
    requires Safe(s) && NoOverlap(s) && Enabled(s, step) && !step.Protocol? && NoOverlap(Apply(s, step))
    requires j != step.job && Active(Apply(s, step), j)
    ensures JobOk(Apply(s, step), j)
  {
    var t := Apply(s, step);
    JobStepPool(s, step);
    assert Active(s, j) && JobOk(s, j) && t.jobs[j] == s.jobs[j];
    assert Active(s, step.job) ==> JobOk(s, step.job);
    if InPhase(s, j) {
      assert WaitsFor(s, j, s.jobs[j].phase.call);
      assert t.ipam.procs[s.jobs[j].phase.call] == s.ipam.procs[s.jobs[j].phase.call];
    }
    if s.jobs[j].phase.Releasing? {
      OthersAddNothing(s, step, j);
    }
    if s.jobs[j].kind.Provision? {
      OthersDestroyNothing(s, step, j);
    }
  }

  /** While a workspace is being released, no other job starts using a block for it. */
  lemma OthersAddNothing(s: State, step: Step, j: nat)
    requires Safe(s) && NoOverlap(s) && Enabled(s, step) && !step.Protocol?
    requires Active(s, j) && s.jobs[j].phase.Releasing?
    ensures UsesNone(Apply(s, step), s.jobs[j].ws)
  {
    var ws := s.jobs[j].ws;
    assert JobOk(s, j) && Destroys(s, j, ws);
    if step.AllocateReturns? {
      assert JobOk(s, step.job);
      assert Provisions(s, step.job, s.jobs[step.job].ws);
    }
  }

  /** While a workspace is being provisioned, no other job marks it destroyed. */
  lemma OthersDestroyNothing(s: State, step: Step, j: nat)
    requires Safe(s) && NoOverlap(s) && Enabled(s, step) && !step.Protocol?
    requires Active(s, j) && s.jobs[j].kind.Provision?
    ensures s.jobs[j].ws in Apply(s, step).status && Apply(s, step).status[s.jobs[j].ws] != "destroyed"
  {
    var ws := s.jobs[j].ws;
    assert JobOk(s, j) && Provisions(s, j, ws);
    if step.ReleaseReturns? {
      assert JobOk(s, step.job);
      assert Destroys(s, step.job, s.jobs[step.job].ws);
    }
    assert |"destroyed"| == 9 && |"provisioning"| == 12 && |"ready"| == 5 && |"failed"| == 6 && |"destroying"| == 10;
  }

  lemma JobStepKeepsLive(s: State, step: Step)
    requires Safe(s) && NoOverlap(s) && Enabled(s, step) && !step.Protocol?
    ensures LiveOk(Apply(s, step))
  {
    var t := Apply(s, step);
    JobStepPool(s, step);
    assert Active(s, step.job) ==> JobOk(s, step.job);
    assert |"destroyed"| == 9 && |"provisioning"| == 12 && |"ready"| == 5 && |"failed"| == 6 && |"destroying"| == 10;
    forall id, ws | ReleaseLate(t, id, ws) ensures UsesNone(t, ws) {
      assert ReleaseLate(s, id, ws);
      if step.AllocateReturns? {
        assert Provisions(s, step.job, s.jobs[step.job].ws);
      }
    }
  }

  lemma StillWaits(s: State, step: Step, j: nat, id: nat)
    requires Safe(s) && Enabled(s, step) && !step.Protocol? && WaitsFor(s, j, id)
    requires id in Apply(s, step).ipam.procs && !Apply(s, step).ipam.procs[id].phase.Done?
    ensures WaitsFor(Apply(s, step), j, id)
  {
    hide Safe;
    JobStepPool(s, step);
  }

  lemma NewCallWaited(s: State, step: Step, id: nat)
    requires Enabled(s, step) && !step.Protocol?
    requires id in Apply(s, step).ipam.procs && id !in s.ipam.procs
    ensures WaitsFor(Apply(s, step), step.job, id)
  {
  }

  lemma PendingCallsWaitedFor(s: State, step: Step, id: nat)
    requires Safe(s) && Enabled(s, step) && !step.Protocol?
    requires id in Apply(s, step).ipam.procs && !Apply(s, step).ipam.procs[id].phase.Done?
    ensures exists j :: WaitsFor(Apply(s, step), j, id)
  {
    hide JobOk, LiveOk, WaitsFor, Enabled, Apply;
    if id in s.ipam.procs {
      JobStepPool(s, step);
      StillPending(s, step, id);
      var j :| WaitsFor(s, j, id);
      StillWaits(s, step, j, id);
    } else {
      NewCallWaited(s, step, id);
    }
  }

  lemma StillPending(s: State, step: Step, id: nat)
    requires Enabled(s, step) && !step.Protocol? && id in s.ipam.procs
    requires id in Apply(s, step).ipam.procs && !Apply(s, step).ipam.procs[id].phase.Done?
    ensures !s.ipam.procs[id].phase.Done?
  {
  }

  lemma CallsStayApart(s: State, step: Step, i: nat, j: nat)
    requires Safe(s) && Enabled(s, step) && !step.Protocol?
    requires InPhase(Apply(s, step), i) && InPhase(Apply(s, step), j)
    requires Apply(s, step).jobs[i].phase.call == Apply(s, step).jobs[j].phase.call
    ensures i == j
  {
    hide LiveOk;
    assert i != step.job ==> InPhase(s, i) && JobOk(s, i);
    assert j != step.job ==> InPhase(s, j) && JobOk(s, j);
  }

  lemma JobStepKeepsWaiting(s: State, step: Step)
    requires Safe(s) && Enabled(s, step) && !step.Protocol?
    ensures CallsWaitedFor(Apply(s, step))
  {
    hide Safe, Enabled, Apply, WaitsFor;
    var t := Apply(s, step);
    forall id | id in t.ipam.procs && !t.ipam.procs[id].phase.Done? ensures exists j :: WaitsFor(t, j, id) {
      PendingCallsWaitedFor(s, step, id);
    }
    forall i, j | InPhase(t, i) && InPhase(t, j) && t.jobs[i].phase.call == t.jobs[j].phase.call ensures i == j {
      CallsStayApart(s, step, i, j);
    }
  }

  lemma JobStepKeepsSafe(s: State, step: Step)
    requires Safe(s) && NoOverlap(s) && Enabled(s, step) && !step.Protocol?
    requires NoOverlap(Apply(s, step))
    ensures Safe(Apply(s, step))
  {
    hide LiveOk, CallsWaitedFor, JobOk, NoOverlap, Enabled, Apply;
    var t := Apply(s, step);
    JobStepPool(s, step);
    JobStepKeepsLive(s, step);
    JobStepKeepsWaiting(s, step);
    forall j | Active(t, j) ensures JobOk(t, j) {
      if j == step.job { OwnJobOk(s, step); } else { OtherJobOk(s, step, j); }
    }
  }

  /** In every reachable state of every run in which no provision of a workspace overlaps a destroy or
      a late release of it, each block in use at the provider is held in the pool by the workspace
      using it. */
  lemma {:induction false} RunsAreSafe(s: State, steps: seq<Step>)
    requires Safe(s) && IsRun(s, steps) && Orderly(s, steps)
    ensures Safe(Exec(s, steps))
    decreases |steps|
  {
    hide Safe, NoOverlap, Enabled, Apply;
    if steps != [] {
      if steps[0].Protocol? {
        ProtocolKeepsSafe(s, steps[0].step);
      } else {
        JobStepKeepsSafe(s, steps[0]);
      }
      RunsAreSafe(Apply(s, steps[0]), steps[1..]);
    }
  }

  /** From a clean start: no block is in use by two workspaces, and a destroyed workspace uses none. */
  lemma NoSharedBlock(s: State, steps: seq<Step>)
    requires Initial(s) && IsRun(s, steps) && Orderly(s, steps)
    ensures forall a, b, c :: (a, c) in Exec(s, steps).live && (b, c) in Exec(s, steps).live ==> a == b
    ensures forall ws, c :: ws in Exec(s, steps).status && Exec(s, steps).status[ws] == "destroyed" ==> (ws, c) !in Exec(s, steps).live
  {
    RunsAreSafe(s, steps);
    var t := Exec(s, steps);
    forall a, b, c | (a, c) in t.live && (b, c) in t.live ensures a == b {
      assert Owns(t, (a, c).0, (a, c).1) && Owns(t, (b, c).0, (b, c).1);
    }
  }

  /** The step at which a workspace's provider-side destroy succeeds. */
  ghost predicate TearsDown(s: State, step: Step, ws: string)
    requires Enabled(s, step)
  {
    step.ProviderDestroyed? && step.ok && s.jobs[step.job].ws == ws
  }

  ghost predicate NeverTornDown(s: State, steps: seq<Step>, ws: string)
    requires IsRun(s, steps)
    decreases |steps|
  {
    steps != [] ==> !TearsDown(s, steps[0], ws) && NeverTornDown(Apply(s, steps[0]), steps[1..], ws)
  }

  lemma {:induction false} LiveUntilTornDown(s: State, steps: seq<Step>, ws: string, c: string)
    requires IsRun(s, steps) && (ws, c) in s.live && NeverTornDown(s, steps, ws)
    ensures (ws, c) in Exec(s, steps).live
    decreases |steps|
  {
    if steps != [] {
      LiveUntilTornDown(Apply(s, steps[0]), steps[1..], ws, c);
    }
  }

  /** A block given to a workspace's provision stays that workspace's in the pool, and is given to
      no other workspace's provision, until a provider-side destroy of the workspace succeeds:
      over all provisions, retries, failed destroys and crashes. */
  lemma BlockStaysUntilDestroyed(s: State, steps: seq<Step>, ws: string, c: string)
    requires Safe(s) && IsRun(s, steps) && Orderly(s, steps)
    requires (ws, c) in s.live && NeverTornDown(s, steps, ws)
    ensures c in Exec(s, steps).ipam.pool && Exec(s, steps).ipam.pool[c] == ws
    ensures forall other :: (other, c) in Exec(s, steps).live ==> other == ws
  {
    RunsAreSafe(s, steps);
    LiveUntilTornDown(s, steps, ws, c);
    var t := Exec(s, steps);
    assert Owns(t, (ws, c).0, (ws, c).1);
    forall other | (other, c) in t.live ensures other == ws {
      assert Owns(t, (other, c).0, (other, c).1);
    }
  }

  // -------------------------------------------- what a destroyed workspace holds

  /** No write on behalf of the workspace arrives late during the run. */
  ghost predicate NothingLands(s: State, steps: seq<Step>, ws: string)
    requires IsRun(s, steps)
    decreases |steps|
  {
    steps != [] ==>
      && !(steps[0].Protocol? && steps[0].step.Land? && s.ipam.procs[steps[0].step.id].call.owner == ws)
      && NothingLands(Apply(s, steps[0]), steps[1..], ws)
  }

  /** No release of the workspace is applied during the run. */
  ghost predicate NeverFreed(s: State, steps: seq<Step>, ws: string)
    requires IsRun(s, steps)
    decreases |steps|
  {
    steps != [] ==> !Frees(s, steps[0], ws) && NeverFreed(Apply(s, steps[0]), steps[1..], ws)
  }

  /** While a workspace is being destroyed it is given no block. */
  lemma NothingGranted(s: State, step: Step, j: nat, ws: string, c: string)
    requires Safe(s) && NoOverlap(s) && Enabled(s, step) && Destroys(s, j, ws)
    requires !(step.Protocol? && step.step.Land? && s.ipam.procs[step.step.id].call.owner == ws)
    requires !Owns(s, ws, c)
    ensures !Owns(Apply(s, step), ws, c)
  {
    if step.Protocol? {
      var st := step.step;
      Ipam.StepSimulates(s.ipam, st);
      var log := Ipam.Decided(s.ipam, st);
      if log != [] {
        assert log[1..] == [];
        if !st.Land? { WhoAllocates(s, st); }
        EffectGrants(s.ipam.pool, s.ipam.procs[st.id].call, ws, c);
      }
    } else {
      JobStepPool(s, step);
    }
  }

  lemma WhoAllocates(s: State, st: Ipam.Step)
    requires Safe(s) && Enabled(s, Protocol(st)) && !st.Land?
    ensures s.ipam.procs[st.id].call.Alloc? ==> exists i :: Provisions(s, i, s.ipam.procs[st.id].call.owner)
  {
    if s.ipam.procs[st.id].call.Alloc? {
      var i :| WaitsFor(s, i, st.id);
      assert JobOk(s, i) && Provisions(s, i, s.jobs[i].ws);
    }
  }

  lemma EffectGrants(pool: Ipam.Pool, call: Ipam.Call, ws: string, c: string)
    requires !(Ipam.Held(pool, c) && pool[c] == ws)
    ensures var next := Ipam.Effect(pool, call); call != Ipam.Alloc(ws) ==> !(Ipam.Held(next, c) && next[c] == ws)
  {
    Ipam.BlankEmpty();
    Ipam.EffectKeys(pool, call);
  }

  /** From the teardown to the end of its release, a destroyed workspace keeps exactly the blocks it
      held, if no release of it is applied, and none otherwise. */
  lemma {:induction false} DestroyedHoldsExactly(s: State, steps: seq<Step>, j: nat, ws: string, c: string)
    requires Safe(s) && IsRun(s, steps) && Orderly(s, steps) && NothingLands(s, steps, ws)
    requires Destroys(s, j, ws) && Destroys(Exec(s, steps), j, ws)
    ensures Owns(Exec(s, steps), ws, c) <==> Owns(s, ws, c) && NeverFreed(s, steps, ws)
    decreases |steps|
  {
    hide Safe, NoOverlap, Enabled, Apply, Owns, Frees, Destroys;
    if steps != [] {
      var t := Apply(s, steps[0]);
      if steps[0].Protocol? { ProtocolKeepsSafe(s, steps[0].step); } else { JobStepKeepsSafe(s, steps[0]); }
      StaysActive(s, steps, j, ws);
      DestroyedHoldsExactly(t, steps[1..], j, ws, c);
      if Owns(s, ws, c) {
        HeldStep(s, steps[0], ws, c);
      } else {
        NothingGranted(s, steps[0], j, ws, c);
      }
    }
  }

  /** So a destroy may end with its block still held (its release failed): it is marked destroyed, and
      holds what it held at the teardown unless a release was applied. */
  lemma DestroyedMayHold(s: State, steps: seq<Step>, j: nat, ws: string, c: string)
    requires Safe(s) && IsRun(s, steps) && Orderly(s, steps) && NothingLands(s, steps, ws)
    requires Destroys(s, j, ws) && Destroys(Exec(s, steps), j, ws) && Enabled(Exec(s, steps), ReleaseReturns(j))
    ensures var t := Apply(Exec(s, steps), ReleaseReturns(j));
      && ws in t.status && t.status[ws] == "destroyed" && UsesNone(t, ws)
      && (Owns(t, ws, c) <==> Owns(s, ws, c) && NeverFreed(s, steps, ws))
  {
    DestroyedHoldsExactly(s, steps, j, ws, c);
    RunsAreSafe(s, steps);
    assert JobOk(Exec(s, steps), j);
  }

  lemma HeldStep(s: State, step: Step, ws: string, c: string)
    requires Safe(s) && Enabled(s, step) && Owns(s, ws, c)
    ensures Owns(Apply(s, step), ws, c) <==> !Frees(s, step, ws)
  {
    hide JobOk, LiveOk, CallsWaitedFor;
    if step.Protocol? { ProtocolStep(s, step.step, ws, c); } else { JobStepPool(s, step); }
  }

  lemma StaysActive(s: State, steps: seq<Step>, j: nat, ws: string)
    requires IsRun(s, steps) && steps != [] && Destroys(s, j, ws) && Destroys(Exec(s, steps), j, ws)
    ensures Destroys(Apply(s, steps[0]), j, ws)
  {
    if !Destroys(Apply(s, steps[0]), j, ws) {
      EndedStays(Apply(s, steps[0]), steps[1..], j);
    }
  }

  lemma {:induction false} EndedStays(s: State, steps: seq<Step>, j: nat)
    requires IsRun(s, steps) && j in s.jobs && !Active(s, j)
    ensures j in Exec(s, steps).jobs && !Active(Exec(s, steps), j)
    decreases |steps|
  {
    if steps != [] {
      EndedStays(Apply(s, steps[0]), steps[1..], j);
    }
  }

  // ------------------------------------------------ the jobs are the code's

  /** What a step does that the code of its job shows. */
  ghost function Emitted(s: State, step: Step): seq<Event>
    requires Enabled(s, step)
  {
    match step
    case BeginProvision(_, ws, _, _, _) => [SetStatus(ws, "provisioning")]
    case AllocateReturns(j) =>
      [AllocateReturned(s.jobs[j].ws, Answer(s, j))] + if Answer(s, j).Got? then [] else [SetStatus(s.jobs[j].ws, "failed")]
    case ProviderProvisioned(j, ok) =>
      [ProvisionReturned(s.jobs[j].ws, s.jobs[j].phase.cidr, ok), SetStatus(s.jobs[j].ws, if ok then "ready" else "failed")]
    case BeginDestroy(_, ws) => [SetStatus(ws, "destroying")]
    case ProviderDestroyed(j, ok, _) =>
      [DestroyReturned(s.jobs[j].ws, ok)] + if ok then [] else [SetStatus(s.jobs[j].ws, "failed")]
    case ReleaseReturns(j) => [ReleaseReturned(s.jobs[j].ws, Answer(s, j)), SetStatus(s.jobs[j].ws, "destroyed")]
    case Crash(_) => []
    case Protocol(_) => []
  }

  ghost function JobLog(s: State, steps: seq<Step>, j: nat): seq<Event>
    requires IsRun(s, steps)
    decreases |steps|
  {
    if steps == [] then []
    else
      (if !steps[0].Protocol? && steps[0].job == j then Emitted(s, steps[0]) else [])
      + JobLog(Apply(s, steps[0]), steps[1..], j)
  }

  ghost predicate Whole(job: Job, t: seq<Event>, r: Ipam.Result, ok: bool) {
    t == match job.kind
         case Provision(createVPC, explicit) => ProvisionTrace(job.ws, createVPC, explicit, true, r, ok)
         case Destroy => DestroyTrace(job.ws, true, r, ok)
  }

  /** What a job in this phase has done. */
  ghost predicate SoFar(job: Job, t: seq<Event>) {
    match job.phase
    case Allocating(_) => job.kind.Provision? && job.kind.createVPC && job.kind.explicit == "" && t == [SetStatus(job.ws, "provisioning")]
    case Provisioning(c) =>
      && job.kind.Provision?
      && (if job.kind.createVPC && job.kind.explicit == ""
          then t == [SetStatus(job.ws, "provisioning"), AllocateReturned(job.ws, Ipam.Got(c))]
          else t == [SetStatus(job.ws, "provisioning")] && c == job.kind.explicit)
    case Destroying => job.kind.Destroy? && t == [SetStatus(job.ws, "destroying")]
    case Releasing(_) => job.kind.Destroy? && t == [SetStatus(job.ws, "destroying"), DestroyReturned(job.ws, true)]
    case Finished => exists r, ok :: Whole(job, t, r, ok)
    case Crashed => exists r, ok, whole :: Whole(job, whole, r, ok) && t <= whole
  }

  lemma CrashedPart(job: Job, t: seq<Event>)
    requires SoFar(job, t) && !job.phase.Finished? && !job.phase.Crashed?
    ensures SoFar(job.(phase := Crashed), t)
  {
    match job.kind
    case Provision(createVPC, explicit) =>
      var r := if job.phase.Provisioning? then Ipam.Got(job.phase.cidr) else Ipam.Died;
      var whole := ProvisionTrace(job.ws, createVPC, explicit, true, r, true);
      assert Whole(job.(phase := Crashed), whole, r, true) && t <= whole;
    case Destroy =>
      var whole := DestroyTrace(job.ws, true, Ipam.Died, true);
      assert Whole(job.(phase := Crashed), whole, Ipam.Died, true) && t <= whole;
  }

  lemma StepSoFar(s: State, step: Step, t: seq<Event>)
    requires Enabled(s, step) && !step.Protocol?
    requires if step.job in s.jobs then SoFar(s.jobs[step.job], t) else t == []
    ensures step.job in Apply(s, step).jobs && SoFar(Apply(s, step).jobs[step.job], t + Emitted(s, step))
  {
    var u, now := Apply(s, step), t + Emitted(s, step);
    var job := u.jobs[step.job];
    match step
    case BeginProvision(_, _, _, _, _) =>
    case AllocateReturns(j) =>
      if !Answer(s, j).Got? { assert Whole(job, now, Answer(s, j), false); }
    case ProviderProvisioned(j, ok) =>
      assert Whole(job, now, Ipam.Got(s.jobs[j].phase.cidr), ok);
    case BeginDestroy(_, _) =>
    case ProviderDestroyed(_, ok, _) =>
      if !ok { assert Whole(job, now, Ipam.Died, false); }
    case ReleaseReturns(j) =>
      assert Whole(job, now, Answer(s, j), true);
    case Crash(j) =>
      assert now == t;
      CrashedPart(s.jobs[j], t);
  }

  lemma StepOther(s: State, step: Step, j: nat)
    requires Enabled(s, step) && (step.Protocol? || step.job != j)
    ensures (j in Apply(s, step).jobs <==> j in s.jobs) && (j in s.jobs ==> Apply(s, step).jobs[j] == s.jobs[j])
  {
  }

  lemma {:induction false} JobDoesItsTrace(s: State, steps: seq<Step>, j: nat, before: seq<Event>)
    requires IsRun(s, steps)
    requires if j in s.jobs then SoFar(s.jobs[j], before) else before == []
    ensures var after := before + JobLog(s, steps, j);
            if j in Exec(s, steps).jobs then SoFar(Exec(s, steps).jobs[j], after) else after == []
    decreases |steps|
  {
    hide Enabled, Apply, SoFar, Emitted;
    if steps == [] {
      assert before + [] == before;
    } else if !steps[0].Protocol? && steps[0].job == j {
      StepSoFar(s, steps[0], before);
      JobDoesItsTrace(Apply(s, steps[0]), steps[1..], j, before + Emitted(s, steps[0]));
      assert before + JobLog(s, steps, j) == before + Emitted(s, steps[0]) + JobLog(Apply(s, steps[0]), steps[1..], j);
    } else {
      StepOther(s, steps[0], j);
      JobDoesItsTrace(Apply(s, steps[0]), steps[1..], j, before);
      assert JobLog(s, steps, j) == JobLog(Apply(s, steps[0]), steps[1..], j);
    }
  }

  /** In every run, whatever runs beside it, a job that has finished has done exactly what the
      sequential code of its job does on some answer of the pool and of the provider. */
  lemma FinishedJobsFollowCode(s: State, steps: seq<Step>, j: nat)
    requires IsRun(s, steps) && j !in s.jobs
    requires j in Exec(s, steps).jobs && Exec(s, steps).jobs[j].phase.Finished?
    ensures exists r, ok :: Whole(Exec(s, steps).jobs[j], JobLog(s, steps, j), r, ok)
  {
    JobDoesItsTrace(s, steps, j, []);
    assert [] + JobLog(s, steps, j) == JobLog(s, steps, j);
  }

  /** The recorded statuses are those the jobs set. */
  function StatusAfter(status: map<string, string>, events: seq<Event>): map<string, string> {
    if events == [] then status
    else
      var before := StatusAfter(status, events[..|events|-1]);
      var e := events[|events|-1];
      if e.SetStatus? then before[e.ws := e.status] else before
  }

  lemma StatusIsEmitted(s: State, step: Step)
    requires Enabled(s, step)
    ensures Apply(s, step).status == StatusAfter(s.status, Emitted(s, step))
  {
    hide StatusAfter, InPhase, CallDone;
    var e := Emitted(s, step);
    StatusOfNone(s.status);
    if |e| == 1 {
      assert e == [e[0]];
      StatusOfOne(s.status, e[0]);
    } else if |e| == 2 {
      assert e == [e[0], e[1]];
      StatusOfTwo(s.status, e[0], e[1]);
    }
  }

  lemma StatusOfNone(status: map<string, string>)
    ensures StatusAfter(status, []) == status
  {
  }

  lemma StatusOfOne(status: map<string, string>, a: Event)
    ensures StatusAfter(status, [a]) == if a.SetStatus? then status[a.ws := a.status] else status
  {
    assert [a][..0] == [];
  }

  lemma StatusOfTwo(status: map<string, string>, a: Event, b: Event)
    ensures StatusAfter(status, [a, b])
         == (var first := StatusAfter(status, [a]); if b.SetStatus? then first[b.ws := b.status] else first)
    ensures StatusAfter(status, [a]) == if a.SetStatus? then status[a.ws := a.status] else status
  {
    assert [a, b][..1] == [a];
    StatusOfOne(status, a);
  }

  // -------------------------------------------------- and the code is a job's

  lemma {:induction false} RunConcat(s: State, a: seq<Step>, b: seq<Step>, j: nat)
    requires IsRun(s, a) && IsRun(Exec(s, a), b)
    ensures IsRun(s, a + b) && Exec(s, a + b) == Exec(Exec(s, a), b)
    ensures JobLog(s, a + b, j) == JobLog(s, a, j) + JobLog(Exec(s, a), b, j)
    decreases |a|
  {
    hide Enabled, Apply, Emitted;
    if a == [] {
      assert a + b == b;
    } else {
      assert (a + b)[0] == a[0] && (a + b)[1..] == a[1..] + b;
      RunConcat(Apply(s, a[0]), a[1..], b, j);
    }
  }

  lemma OneStep(s: State, step: Step, j: nat)
    requires Enabled(s, step)
    ensures IsRun(s, [step]) && Exec(s, [step]) == Apply(s, step)
    ensures JobLog(s, [step], j) == if !step.Protocol? && step.job == j then Emitted(s, step) else []
  {
    assert [step][1..] == [];
    assert IsRun(Apply(s, step), []);
  }

  function Lift(steps: seq<Ipam.Step>): seq<Step> {
    if steps == [] then [] else [Protocol(steps[0])] + Lift(steps[1..])
  }

  lemma {:induction false} LiftRuns(s: State, steps: seq<Ipam.Step>, j: nat)
    requires Ipam.IsRun(s.ipam, steps) && forall st :: st in steps ==> IsProtocol(st)
    ensures IsRun(s, Lift(steps)) && Exec(s, Lift(steps)) == s.(ipam := Ipam.Exec(s.ipam, steps))
    ensures JobLog(s, Lift(steps), j) == []
    decreases |steps|
  {
    hide Ipam.Apply, Ipam.Enabled;
    if steps != [] {
      assert steps[0] in steps;
      var t := Apply(s, Protocol(steps[0]));
      LiftRuns(t, steps[1..], j);
      assert Lift(steps)[1..] == Lift(steps[1..]);
    }
  }

  lemma AllocationPath(t: State, j: nat, ws: string, call: nat, pool: seq<Ipam.Step>, r: Ipam.Result) returns (steps: seq<Step>)
    requires j in t.jobs && t.jobs[j] == Job(ws, Provision(true, ""), Allocating(call))
    requires Ipam.IsRun(t.ipam, pool) && (forall st :: st in pool ==> IsProtocol(st))
    requires AnsweredWith(Ipam.Exec(t.ipam, pool), call, r)
    ensures IsRun(t, steps) && j in Exec(t, steps).jobs
    ensures JobLog(t, steps, j) == [AllocateReturned(ws, r)] + if r.Got? then [] else [SetStatus(ws, "failed")]
    ensures Exec(t, steps).jobs[j] == Job(ws, Provision(true, ""), if r.Got? then Provisioning(r.cidr) else Finished)
  {
    hide Ipam.Apply, Ipam.Enabled, Ipam.IsRun, Ipam.Exec;
    LiftRuns(t, pool, j);
    var u, back := Exec(t, Lift(pool)), AllocateReturns(j);
    assert Enabled(u, back);
    OneStep(u, back, j);
    RunConcat(t, Lift(pool), [back], j);
    steps := Lift(pool) + [back];
  }

  lemma ProviderPath(s: State, before: seq<Step>, j: nat, ok: bool) returns (steps: seq<Step>)
    requires IsRun(s, before) && j in Exec(s, before).jobs && Exec(s, before).jobs[j].phase.Provisioning?
    ensures var job := Exec(s, before).jobs[j];
      && IsRun(s, steps) && j in Exec(s, steps).jobs && Exec(s, steps).jobs[j] == job.(phase := Finished)
      && JobLog(s, steps, j) == JobLog(s, before, j)
           + [ProvisionReturned(job.ws, job.phase.cidr, ok), SetStatus(job.ws, if ok then "ready" else "failed")]
  {
    var last := ProviderProvisioned(j, ok);
    OneStep(Exec(s, before), last, j);
    RunConcat(s, before, [last], j);
    steps := before + [last];
  }

  /** Every run of the provisioning code is a path of the machine: with any course of the pool
      protocol (other processes' steps included) that ends its allocation with the answer r, and
      either outcome at the provider, the job goes through and does the code's trace. */
  lemma ProvisionIsPath(s: State, j: nat, ws: string, createVPC: bool, explicit: string, call: nat,
                        pool: seq<Ipam.Step>, r: Ipam.Result, ok: bool) returns (steps: seq<Step>)
    requires j !in s.jobs && !Blank(ws)
    requires createVPC && explicit == "" ==>
      && Ipam.Enabled(s.ipam, Ipam.Start(call, Ipam.Alloc(ws)))
      && Ipam.IsRun(Ipam.Apply(s.ipam, Ipam.Start(call, Ipam.Alloc(ws))), pool)
      && (forall st :: st in pool ==> IsProtocol(st))
      && AnsweredWith(Ipam.Exec(Ipam.Apply(s.ipam, Ipam.Start(call, Ipam.Alloc(ws))), pool), call, r)
    ensures IsRun(s, steps) && JobLog(s, steps, j) == ProvisionTrace(ws, createVPC, explicit, true, r, ok)
    ensures j in Exec(s, steps).jobs && Exec(s, steps).jobs[j] == Job(ws, Provision(createVPC, explicit), Finished)
  {
    hide Ipam.Apply, Ipam.Enabled, Ipam.IsRun, Ipam.Exec, IsRun, Exec, JobLog;
    var begin := BeginProvision(j, ws, createVPC, explicit, call);
    OneStep(s, begin, j);
    steps := [begin];
    if createVPC && explicit == "" {
      var more := AllocationPath(Apply(s, begin), j, ws, call, pool, r);
      RunConcat(s, [begin], more, j);
      steps := [begin] + more;
    }
    if Exec(s, steps).jobs[j].phase.Provisioning? {
      steps := ProviderPath(s, steps, j, ok);
    }
  }

  predicate AnsweredWith(s: Ipam.State, call: nat, r: Ipam.Result) {
    call in s.procs && s.procs[call].phase == Ipam.Done(r)
  }

  /** The same of the destroy code. */
  lemma DestroyIsPath(s: State, j: nat, ws: string, call: nat, pool: seq<Ipam.Step>, r: Ipam.Result, ok: bool)
    returns (steps: seq<Step>)
    requires j !in s.jobs && !Blank(ws)
    requires ok ==>
      && Ipam.Enabled(s.ipam, Ipam.Start(call, Ipam.Free(ws)))
      && Ipam.IsRun(Ipam.Apply(s.ipam, Ipam.Start(call, Ipam.Free(ws))), pool)
      && (forall st :: st in pool ==> IsProtocol(st))
      && AnsweredWith(Ipam.Exec(Ipam.Apply(s.ipam, Ipam.Start(call, Ipam.Free(ws))), pool), call, r)
    ensures IsRun(s, steps) && JobLog(s, steps, j) == DestroyTrace(ws, true, r, ok)
    ensures j in Exec(s, steps).jobs && Exec(s, steps).jobs[j] == Job(ws, Destroy, Finished)
  {
    hide Ipam.Apply, Ipam.Enabled, Ipam.IsRun, Ipam.Exec, IsRun, Exec, JobLog;
    var begin, down := BeginDestroy(j, ws), ProviderDestroyed(j, ok, call);
    OneStep(s, begin, j);
    OneStep(Apply(s, begin), down, j);
    RunConcat(s, [begin], [down], j);
    steps := [begin] + [down];
    if ok {
      var more := ReleasePath(Apply(Apply(s, begin), down), j, ws, call, pool, r);
      RunConcat(s, steps, more, j);
      steps := steps + more;
    }
  }

  lemma ReleasePath(t: State, j: nat, ws: string, call: nat, pool: seq<Ipam.Step>, r: Ipam.Result) returns (steps: seq<Step>)
    requires j in t.jobs && t.jobs[j] == Job(ws, Destroy, Releasing(call))
    requires Ipam.IsRun(t.ipam, pool) && (forall st :: st in pool ==> IsProtocol(st))
    requires AnsweredWith(Ipam.Exec(t.ipam, pool), call, r)
    ensures IsRun(t, steps) && JobLog(t, steps, j) == [ReleaseReturned(ws, r), SetStatus(ws, "destroyed")]
    ensures j in Exec(t, steps).jobs && Exec(t, steps).jobs[j] == Job(ws, Destroy, Finished)
  {
    hide Ipam.Apply, Ipam.Enabled, Ipam.IsRun, Ipam.Exec;
    LiftRuns(t, pool, j);
    var u, back := Exec(t, Lift(pool)), ReleaseReturns(j);
    assert Enabled(u, back);
    OneStep(u, back, j);
    RunConcat(t, Lift(pool), [back], j);
    steps := Lift(pool) + [back];
  }
}

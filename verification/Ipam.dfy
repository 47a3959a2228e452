/** The CIDR pool, the atomic allocator it promises to be, and the optimistic
    read / compare-and-swap protocol that any number of processes run against it. */
module Ipam {
  import opened Strings
  import opened Wrappers

  /** cidr -> owner; a blank owner means the block is free. */
  type Pool = map<string, string>

  // ---------------------------------------------------------------- the pool

  predicate Held(pool: Pool, c: string) {
    c in pool && !Blank(pool[c])
  }

  predicate OwnsAny(pool: Pool, owner: string) {
    exists c :: c in pool && pool[c] == owner
  }

  function FreeKeys(pool: Pool): set<string> {
    set c | c in pool && Blank(pool[c])
  }

  ghost predicate IsLeast(c: string, keys: set<string>) {
    c in keys && forall d :: d in keys && d != c ==> Less(c, d)
  }

  lemma {:induction false} LeastExists(keys: set<string>)
    requires keys != {}
    ensures exists c :: IsLeast(c, keys)
    decreases |keys|
  {
    var c :| c in keys;
    if keys == {c} {
      assert IsLeast(c, keys);
    } else {
      LeastExists(keys - {c});
      var d :| IsLeast(d, keys - {c});
      LessTotal(c, d);
      if Less(c, d) {
        forall e | e in keys && e != c && e != d ensures Less(c, e) {
          LessTransitive(c, d, e);
        }
        assert IsLeast(c, keys);
      } else {
        assert IsLeast(d, keys);
      }
    }
  }

  lemma LeastUnique(c: string, d: string, keys: set<string>)
    requires IsLeast(c, keys) && IsLeast(d, keys)
    ensures c == d
  {
    LessTotal(c, d);
  }

  /** The smallest free key, or "" when there is none. */
  ghost function FirstFree(pool: Pool): (c: string)
    ensures if FreeKeys(pool) == {} then c == "" else IsLeast(c, FreeKeys(pool))
  {
    if FreeKeys(pool) == {} then ""
    else
      LeastExists(FreeKeys(pool));
      var c :| IsLeast(c, FreeKeys(pool));
      c
  }

  function ReleaseAll(pool: Pool, owner: string): Pool {
    map c | c in pool :: if pool[c] == owner then "" else pool[c]
  }

  // ------------------------------------------------- the atomic allocator

  datatype Call = Alloc(owner: string) | Free(owner: string)

  datatype Result =
    | Got(cidr: string)
    | Freed
    | EmptyOwner
    | PoolExhausted
    | RetriesExhausted
    | ReadFailed
    | WriteFailed
    | Died

  /** What a call does to the pool when nothing else runs. */
  ghost function Effect(pool: Pool, call: Call): Pool {
    if call.owner == "" then pool
    else
      match call
      case Alloc(o) => if OwnsAny(pool, o) || FreeKeys(pool) == {} then pool else pool[FirstFree(pool) := o]
      case Free(o) => ReleaseAll(pool, o)
  }

  /** What a call may answer when nothing else runs. */
  ghost predicate Answers(pool: Pool, call: Call, r: Result) {
    if call.owner == "" then r == EmptyOwner
    else
      match call
      case Alloc(o) =>
        if OwnsAny(pool, o) then r.Got? && r.cidr in pool && pool[r.cidr] == o
        else if FreeKeys(pool) == {} then r == PoolExhausted
        else r == Got(FirstFree(pool))
      case Free(_) => r == Freed
  }

  datatype Entry = Entry(id: nat, call: Call, result: Result)

  ghost function Replay(pool: Pool, log: seq<Entry>): Pool {
    if log == [] then pool else Replay(Effect(pool, log[0].call), log[1..])
  }

  ghost predicate Sequential(pool: Pool, log: seq<Entry>) {
    log != [] ==>
      && Answers(pool, log[0].call, log[0].result)
      && Sequential(Effect(pool, log[0].call), log[1..])
  }

  // --------------------------------------------------------- the protocol

  datatype Decision = Return(result: Result) | Commit(next: Pool, result: Result)

  /** The answers `ownedBy` may give: map iteration order picks among several blocks. */
  ghost predicate MayPick(pool: Pool, owner: string, pick: string) {
    if OwnsAny(pool, owner) then pick in pool && pool[pick] == owner else pick == ""
  }

  /** What a process does with a snapshot it has just read. */
  ghost function Decide(pool: Pool, call: Call, pick: string): Decision {
    match call
    case Alloc(o) =>
      if pick != "" then Return(Got(pick))
      else
        var f := FirstFree(pool);
        if f == "" then Return(PoolExhausted) else Commit(pool[f := o], Got(f))
    case Free(o) =>
      if OwnsAny(pool, o) then Commit(ReleaseAll(pool, o), Freed) else Return(Freed)
  }

  datatype Phase =
    | ToRead(attempt: nat)
    | ToWrite(attempt: nat, next: Pool, result: Result, seen: nat)
    | Done(result: Result)

  datatype Proc = Proc(call: Call, phase: Phase)

  /** A write request that its caller has given up on and that may still arrive. */
  datatype Straggler = Straggler(next: Pool, result: Result, seen: nat)

  /** `procs` is indexed by call: an id is never used for a second call. `late` holds stragglers. */
  datatype State = State(pool: Pool, version: nat, procs: map<nat, Proc>, late: map<nat, Straggler>, maxRetries: nat)

  /** How a compare-and-swap request fares: answered, lost on the way, applied with its answer lost,
      or held up on the way so that its caller gives up first. */
  datatype Fate = Answered | RequestLost | AnswerLost | Delayed

  datatype Step =
    | Start(id: nat, call: Call)
    | Read(id: nat, ok: bool, pick: string)
    | Write(id: nat, fate: Fate)
    | Die(id: nat)
    | Land(id: nat)

  function Attempt(s: State, n: nat): Phase {
    if n < s.maxRetries then ToRead(n) else Done(RetriesExhausted)
  }

  /** No free block and none of the owner's own lies under the empty key. */
  predicate EmptyKeyInert(pool: Pool, owner: string) {
    "" in pool ==> !Blank(pool[""]) && pool[""] != owner
  }

  /** Callers are those for whom a block under the empty key, if there is one, plays no part. */
  ghost predicate Enabled(s: State, step: Step) {
    match step
    case Start(id, call) => id !in s.procs && EmptyKeyInert(s.pool, call.owner)
    case Read(id, _, pick) =>
      && id in s.procs && s.procs[id].phase.ToRead?
      && (s.procs[id].call.Alloc? ==> MayPick(s.pool, s.procs[id].call.owner, pick))
    case Write(id, _) => id in s.procs && s.procs[id].phase.ToWrite?
    case Die(id) => id in s.procs && !s.procs[id].phase.Done?
    case Land(id) => id in s.procs && id in s.late
  }

  /** The write a step brings to the store, if the store receives one. */
  function Arriving(s: State, step: Step): Option<Straggler> {
    if step.Write? && step.id in s.procs && s.procs[step.id].phase.ToWrite? && step.fate != RequestLost && step.fate != Delayed
    then Some(Pending(s.procs[step.id].phase))
    else if step.Land? && step.id in s.late then Some(s.late[step.id])
    else None
  }

  function Pending(ph: Phase): Straggler
    requires ph.ToWrite?
  {
    Straggler(ph.next, ph.result, ph.seen)
  }

  /** A write that the store applies. */
  predicate Commits(s: State, step: Step) {
    Arriving(s, step).Some? && Arriving(s, step).value.seen == s.version
  }

  ghost function NextPhase(s: State, step: Step): Phase
    requires Enabled(s, step) && !step.Start?
  {
    var p := s.procs[step.id];
    match step
    case Read(_, ok, pick) =>
      if !ok then Done(ReadFailed)
      else (
        match Decide(s.pool, p.call, pick)
        case Return(r) => Done(r)
        case Commit(next, r) => ToWrite(p.phase.attempt, next, r, s.version))
    case Write(_, fate) =>
      if fate != Answered then Done(WriteFailed)
      else if Commits(s, step) then Done(p.phase.result)
      else Attempt(s, p.phase.attempt + 1)
    case Die(_) => Done(Died)
    case Land(_) => p.phase
  }

  function NextLate(s: State, step: Step): map<nat, Straggler> {
    if step.Land? then s.late - {step.id}
    else if step.Write? && step.fate == Delayed && step.id in s.procs && s.procs[step.id].phase.ToWrite?
    then s.late[step.id := Pending(s.procs[step.id].phase)]
    else s.late
  }

  ghost function Apply(s: State, step: Step): State
    requires Enabled(s, step)
  {
    if step.Start? then
      var ph := if step.call.owner == "" then Done(EmptyOwner) else Attempt(s, 0);
      s.(procs := s.procs[step.id := Proc(step.call, ph)])
    else
      var t := s.(procs := s.procs[step.id := s.procs[step.id].(phase := NextPhase(s, step))], late := NextLate(s, step));
      if Commits(s, step) then t.(pool := Arriving(s, step).value.next, version := s.version + 1) else t
  }

  ghost predicate IsRun(s: State, steps: seq<Step>)
    decreases |steps|
  {
    steps != [] ==> Enabled(s, steps[0]) && IsRun(Apply(s, steps[0]), steps[1..])
  }

  ghost function Exec(s: State, steps: seq<Step>): State
    requires IsRun(s, steps)
    decreases |steps|
  {
    if steps == [] then s else Exec(Apply(s, steps[0]), steps[1..])
  }

  // ------------------------------------------------------ linearization

  /** The atomic call that a step stands for: its deciding read or its applied write. */
  ghost function Decided(s: State, step: Step): (log: seq<Entry>)
    requires Enabled(s, step)
    ensures |log| <= 1
    ensures log != [] ==> log[0].id == step.id
  {
    match step
    case Start(id, call) => if call.owner == "" then [Entry(id, call, EmptyOwner)] else []
    case Read(id, ok, pick) =>
      var call := s.procs[id].call;
      if ok && Decide(s.pool, call, pick).Return?
      then [Entry(id, call, Decide(s.pool, call, pick).result)] else []
    case Die(_) => []
    case _ =>
      if Commits(s, step) then [Entry(step.id, s.procs[step.id].call, Arriving(s, step).value.result)] else []
  }

  ghost function Log(s: State, steps: seq<Step>): seq<Entry>
    requires IsRun(s, steps)
    decreases |steps|
  {
    if steps == [] then [] else Decided(s, steps[0]) + Log(Apply(s, steps[0]), steps[1..])
  }

  /** A pending write that has not been overtaken is exactly its call's atomic effect on the current pool. */
  ghost predicate WriteOk(s: State, call: Call, w: Straggler) {
    && call.owner != "" && w.seen <= s.version && (w.result.Got? || w.result.Freed?)
    && (w.seen == s.version ==> w.next == Effect(s.pool, call) && Answers(s.pool, call, w.result))
  }

  ghost predicate PhaseOk(s: State, p: Proc) {
    match p.phase
    case ToRead(a) => a < s.maxRetries && p.call.owner != ""
    case ToWrite(a, _, _, _) => a < s.maxRetries && WriteOk(s, p.call, Pending(p.phase))
    case Done(_) => true
  }

  ghost predicate Inv(s: State) {
    && (forall id :: id in s.procs ==> EmptyKeyInert(s.pool, s.procs[id].call.owner) && PhaseOk(s, s.procs[id]))
    && (forall id :: id in s.late ==>
          id in s.procs && s.procs[id].phase == Done(WriteFailed) && WriteOk(s, s.procs[id].call, s.late[id]))
  }

  lemma EffectKeys(pool: Pool, call: Call)
    ensures Effect(pool, call).Keys == pool.Keys
  {
    if call.Alloc? && call.owner != "" && !OwnsAny(pool, call.owner) && FreeKeys(pool) != {} {
      assert FirstFree(pool) in FreeKeys(pool);
    }
  }

  lemma EffectLeavesEmptyKey(pool: Pool, call: Call)
    requires EmptyKeyInert(pool, call.owner)
    ensures "" in Effect(pool, call) ==> "" in pool && Effect(pool, call)[""] == pool[""]
  {
    EffectKeys(pool, call);
  }

  /** A snapshot decision is the atomic call on that snapshot. */
  lemma DecideIsAtomic(pool: Pool, call: Call, pick: string)
    requires EmptyKeyInert(pool, call.owner) && call.owner != ""
    requires call.Alloc? ==> MayPick(pool, call.owner, pick)
    ensures Answers(pool, call, Decide(pool, call, pick).result)
    ensures Decide(pool, call, pick).Return? ==> Effect(pool, call) == pool
    ensures Decide(pool, call, pick).Commit? ==> Decide(pool, call, pick).next == Effect(pool, call)
  {
    if call.Free? && !OwnsAny(pool, call.owner) {
      assert ReleaseAll(pool, call.owner) == pool;
    }
  }

  lemma StepKeepsInv(s: State, step: Step)
    requires Inv(s) && Enabled(s, step)
    ensures Inv(Apply(s, step))
  {
    var t := Apply(s, step);
    if step.Read? {
      DecideIsAtomic(s.pool, s.procs[step.id].call, step.pick);
    }
    assert step.id in s.procs ==> PhaseOk(s, s.procs[step.id]);
    forall id | id in t.procs ensures PhaseOk(t, t.procs[id]) && EmptyKeyInert(t.pool, t.procs[id].call.owner) {
      if id != step.id { assert PhaseOk(s, s.procs[id]); }
      if Commits(s, step) { EffectLeavesEmptyKey(s.pool, s.procs[step.id].call); }
    }
  }

  /** One step of any process is one atomic call or nothing at all, and keeps the invariant. */
  lemma StepSimulates(s: State, step: Step)
    requires Inv(s) && Enabled(s, step)
    ensures Inv(Apply(s, step))
    ensures Sequential(s.pool, Decided(s, step))
    ensures Replay(s.pool, Decided(s, step)) == Apply(s, step).pool
  {
    StepKeepsInv(s, step);
    if step.Read? {
      DecideIsAtomic(s.pool, s.procs[step.id].call, step.pick);
    }
    assert step.id in s.procs ==> PhaseOk(s, s.procs[step.id]);
    if Decided(s, step) != [] {
      assert Decided(s, step)[1..] == [];
    }
  }

  lemma {:induction false} SequentialConcat(pool: Pool, a: seq<Entry>, b: seq<Entry>)
    ensures Replay(pool, a + b) == Replay(Replay(pool, a), b)
    ensures Sequential(pool, a + b) <==> Sequential(pool, a) && Sequential(Replay(pool, a), b)
  {
    if a == [] {
      assert a + b == b;
    } else {
      assert (a + b)[1..] == a[1..] + b;
      SequentialConcat(Effect(pool, a[0].call), a[1..], b);
    }
  }

  /** Every interleaving of any number of calls is a sequential run of the atomic allocator. */
  lemma {:induction false} Linearizable(s: State, steps: seq<Step>)
    requires Inv(s) && IsRun(s, steps)
    ensures Inv(Exec(s, steps))
    ensures Sequential(s.pool, Log(s, steps))
    ensures Replay(s.pool, Log(s, steps)) == Exec(s, steps).pool
    decreases |steps|
  {
    hide Apply, Enabled, Decided, Inv;
    if steps != [] {
      var t := Apply(s, steps[0]);
      StepSimulates(s, steps[0]);
      Linearizable(t, steps[1..]);
      SequentialConcat(s.pool, Decided(s, steps[0]), Log(t, steps[1..]));
    }
  }

  function EntriesOf(id: nat, log: seq<Entry>): seq<Entry> {
    if log == [] then []
    else (if log[0].id == id then [log[0]] else []) + EntriesOf(id, log[1..])
  }

  lemma {:induction false} EntriesConcat(id: nat, a: seq<Entry>, b: seq<Entry>)
    ensures EntriesOf(id, a + b) == EntriesOf(id, a) + EntriesOf(id, b)
  {
    if a == [] {
      assert a + b == b;
    } else {
      var head := if a[0].id == id then [a[0]] else [];
      assert (a + b)[0] == a[0] && (a + b)[1..] == a[1..] + b;
      EntriesConcat(id, a[1..], b);
      assert EntriesOf(id, a + b) == head + EntriesOf(id, a[1..] + b) && EntriesOf(id, a) == head + EntriesOf(id, a[1..]);
    }
  }

  /** What the log holds for a call, given how the call ended. */
  ghost predicate Accounts(s: State, id: nat, mine: seq<Entry>) {
    if id !in s.procs then mine == []
    else
      var p := s.procs[id];
      match p.phase
      case Done(Got(_)) => mine == [Entry(id, p.call, p.phase.result)]
      case Done(Freed) => mine == [Entry(id, p.call, p.phase.result)]
      case Done(EmptyOwner) => mine == [Entry(id, p.call, p.phase.result)]
      case Done(PoolExhausted) => mine == [Entry(id, p.call, p.phase.result)]
      case Done(WriteFailed) => mine == [] || (id !in s.late && exists r :: mine == [Entry(id, p.call, r)])
      case _ => mine == []
  }

  /** Nothing more can come of the call. */
  predicate Settled(s: State, id: nat) {
    id in s.procs && s.procs[id].phase.Done? && id !in s.late
  }

  /** One step logs a call if and only if it decides it. */
  lemma StepAccounts(s: State, step: Step)
    requires Inv(s) && Enabled(s, step)
    ensures var t := Apply(s, step);
      && step.id in t.procs
      && (step.id in s.procs ==> t.procs[step.id].call == s.procs[step.id].call)
      && (step.id in s.procs && s.procs[step.id].phase.Done? ==> step.id in s.late && Settled(t, step.id) && t.procs == s.procs)
      && Accounts(t, step.id, Decided(s, step))
      && t.procs.Keys == s.procs.Keys + {step.id}
      && (forall id :: id in s.procs && id != step.id ==> t.procs[id] == s.procs[id])
      && (forall id :: id != step.id ==> (id in t.late <==> id in s.late))
  {
    assert step.id in s.procs ==> PhaseOk(s, s.procs[step.id]);
    if step.Read? {
      DecideIsAtomic(s.pool, s.procs[step.id].call, step.pick);
    }
  }

  lemma EntriesOfOne(id: nat, log: seq<Entry>)
    requires |log| <= 1
    ensures EntriesOf(id, log) == if log != [] && log[0].id == id then log else []
  {
    if log != [] {
      assert log == [log[0]] && log[1..] == [];
    }
  }

  /** A finished call has exactly one log entry, carrying the answer it returned; a call
      that failed or is still running has none (a failed write may take effect once, then or later). */
  lemma {:induction false} EachCallOnce(s: State, steps: seq<Step>, id: nat)
    requires Inv(s) && IsRun(s, steps)
    requires id in s.procs ==> !s.procs[id].phase.Done? || id in s.late
    ensures id in s.procs ==> id in Exec(s, steps).procs && Exec(s, steps).procs[id].call == s.procs[id].call
    ensures Accounts(Exec(s, steps), id, EntriesOf(id, Log(s, steps)))
    decreases |steps|
  {
    hide Apply, Enabled, Decided;
    if steps != [] {
      var t := Apply(s, steps[0]);
      var now := Decided(s, steps[0]);
      StepSimulates(s, steps[0]);
      StepAccounts(s, steps[0]);
      EntriesConcat(id, now, Log(t, steps[1..]));
      EntriesOfOne(id, now);
      if Settled(t, id) {
        assert steps[0].id == id;
        DoneStays(t, steps[1..], id);
        assert EntriesOf(id, Log(s, steps)) == now;
      } else {
        EachCallOnce(t, steps[1..], id);
        assert EntriesOf(id, now) == [];
        assert EntriesOf(id, Log(s, steps)) == EntriesOf(id, Log(t, steps[1..]));
      }
    } else {
      assert EntriesOf(id, Log(s, steps)) == [];
    }
  }

  lemma {:induction false} DoneStays(s: State, steps: seq<Step>, id: nat)
    requires IsRun(s, steps) && Settled(s, id)
    ensures Settled(Exec(s, steps), id) && Exec(s, steps).procs[id] == s.procs[id]
    ensures EntriesOf(id, Log(s, steps)) == []
    decreases |steps|
  {
    if steps != [] {
      EntriesConcat(id, Decided(s, steps[0]), Log(Apply(s, steps[0]), steps[1..]));
      DoneStays(Apply(s, steps[0]), steps[1..], id);
    }
  }

  lemma {:induction false} RunConcat(s: State, a: seq<Step>, b: seq<Step>)
    requires IsRun(s, a) && IsRun(Exec(s, a), b)
    ensures IsRun(s, a + b)
    ensures Exec(s, a + b) == Exec(Exec(s, a), b)
    ensures Log(s, a + b) == Log(s, a) + Log(Exec(s, a), b)
    decreases |a|
  {
    hide Apply, Enabled, Decided;
    if a == [] {
      assert a + b == b;
    } else {
      assert (a + b)[0] == a[0] && (a + b)[1..] == a[1..] + b;
      RunConcat(Apply(s, a[0]), a[1..], b);
    }
  }

  /** The sequential order respects real time: a call that returned before another one started,
      with no write of its own still under way, has all its entries in the part of the log before
      that start. */
  lemma RealTimeOrder(s: State, a: seq<Step>, b: seq<Step>, early: nat, late: nat)
    requires Inv(s) && s.procs == map[]
    requires IsRun(s, a) && IsRun(Exec(s, a), b)
    requires Settled(Exec(s, a), early)
    requires late !in Exec(s, a).procs
    ensures IsRun(s, a + b) && Log(s, a) <= Log(s, a + b)
    ensures EntriesOf(early, Log(s, a + b)[|Log(s, a)|..]) == []
    ensures EntriesOf(late, Log(s, a + b)[..|Log(s, a)|]) == []
  {
    RunConcat(s, a, b);
    DoneStays(Exec(s, a), b, early);
    EachCallOnce(s, a, late);
    assert Log(s, a + b)[|Log(s, a)|..] == Log(Exec(s, a), b);
    assert Log(s, a + b)[..|Log(s, a)|] == Log(s, a);
  }

  // -------------------------------------------------------- retry bound

  function Interferes(s: State, step: Step, id: nat): nat {
    if Commits(s, step) && step.id != id then 1 else 0
  }

  /** Writes by calls other than `id` that the store applied. */
  ghost function CommitsByOthers(s: State, steps: seq<Step>, id: nat): nat
    requires IsRun(s, steps)
    decreases |steps|
  {
    if steps == [] then 0
    else
      Interferes(s, steps[0], id) + CommitsByOthers(Apply(s, steps[0]), steps[1..], id)
  }

  /** Interfering commits a call can still absorb before it gives up. */
  function Slack(s: State, p: Proc): int {
    match p.phase
    case ToRead(a) => s.maxRetries - a
    case ToWrite(a, _, _, seen) => s.maxRetries - a - (if seen < s.version then 1 else 0)
    case Done(_) => 0
  }

  /** A step costs a call no more slack than it interferes, and ends it for lack of retries only when
      none is left. */
  lemma SlackStep(s: State, step: Step, id: nat)
    requires Inv(s) && Enabled(s, step) && id in s.procs && !s.procs[id].phase.Done?
    ensures id in Apply(s, step).procs
    ensures Apply(s, step).procs[id].phase == Done(RetriesExhausted) ==> Interferes(s, step, id) >= Slack(s, s.procs[id])
    ensures !Apply(s, step).procs[id].phase.Done? ==>
              Slack(Apply(s, step), Apply(s, step).procs[id]) + Interferes(s, step, id) >= Slack(s, s.procs[id])
  {
    hide Effect, Answers;
    assert PhaseOk(s, s.procs[id]);
    if step.Read? && step.id == id && step.ok {
      NotExhausted(s.pool, s.procs[id].call, step.pick);
    }
  }

  lemma NotExhausted(pool: Pool, call: Call, pick: string)
    ensures Decide(pool, call, pick).result != RetriesExhausted
  {
  }

  lemma {:induction false} RetryDebt(s: State, steps: seq<Step>, id: nat)
    requires Inv(s) && IsRun(s, steps)
    requires id in s.procs && !s.procs[id].phase.Done?
    ensures id in Exec(s, steps).procs
    ensures Exec(s, steps).procs[id].phase == Done(RetriesExhausted) ==>
              CommitsByOthers(s, steps, id) >= Slack(s, s.procs[id])
    decreases |steps|
  {
    hide Apply, Enabled, Commits, Inv, Slack;
    if steps == [] {
    } else {
      var t := Apply(s, steps[0]);
      StepSimulates(s, steps[0]);
      SlackStep(s, steps[0], id);
      if t.procs[id].phase.Done? {
        DoneKeepsPhase(t, steps[1..], id);
      } else {
        RetryDebt(t, steps[1..], id);
      }
    }
  }

  lemma {:induction false} DoneKeepsPhase(s: State, steps: seq<Step>, id: nat)
    requires IsRun(s, steps) && id in s.procs && s.procs[id].phase.Done?
    ensures id in Exec(s, steps).procs && Exec(s, steps).procs[id] == s.procs[id]
    decreases |steps|
  {
    if steps != [] {
      DoneKeepsPhase(Apply(s, steps[0]), steps[1..], id);
    }
  }

  /** A call gives up with "CAS retries exhausted" only if at least maxRetries commits by
      other calls fell between its start and its return. */
  lemma RetriesNeedInterference(s: State, steps: seq<Step>, id: nat)
    requires Inv(s) && id !in s.procs
    requires IsRun(s, steps) && steps != [] && steps[0].Start? && steps[0].id == id
    requires id in Exec(s, steps).procs && Exec(s, steps).procs[id].phase == Done(RetriesExhausted)
    ensures CommitsByOthers(s, steps, id) >= s.maxRetries
  {
    var t := Apply(s, steps[0]);
    StepSimulates(s, steps[0]);
    if t.procs[id].phase.Done? {
      DoneKeepsPhase(t, steps[1..], id);
    } else {
      RetryDebt(t, steps[1..], id);
    }
  }

  /** Writes by the call `id` that the store applied. */
  ghost function CommitsBy(s: State, steps: seq<Step>, id: nat): nat
    requires IsRun(s, steps)
    decreases |steps|
  {
    if steps == [] then 0
    else
      (if Commits(s, steps[0]) && steps[0].id == id then 1 else 0)
      + CommitsBy(Apply(s, steps[0]), steps[1..], id)
  }

  /** The version grows by one for each applied write, and each call has at most one. */
  lemma {:induction false} VersionCountsCommits(s: State, steps: seq<Step>, id: nat)
    requires Inv(s) && IsRun(s, steps)
    ensures Exec(s, steps).version == s.version + CommitsBy(s, steps, id) + CommitsByOthers(s, steps, id)
    ensures CommitsBy(s, steps, id) <= 1
    ensures Settled(s, id) ==> CommitsBy(s, steps, id) == 0
    decreases |steps|
  {
    if steps != [] {
      StepSimulates(s, steps[0]);
      VersionCountsCommits(Apply(s, steps[0]), steps[1..], id);
    }
  }

  // ---------------------------------------------- exclusivity and idempotence

  /** No two blocks have the same (non-blank) owner. */
  ghost predicate Exclusive(pool: Pool) {
    forall c, d :: Held(pool, c) && Held(pool, d) && pool[c] == pool[d] ==> c == d
  }

  /** What one atomic call can do to a held block: nothing, unless it is its owner's release. */
  lemma EffectKeepsOwners(pool: Pool, call: Call)
    ensures Exclusive(pool) ==> Exclusive(Effect(pool, call))
    ensures forall c :: Held(pool, c) && call != Free(pool[c]) ==> Held(Effect(pool, call), c) && Effect(pool, call)[c] == pool[c]
    ensures forall c :: Held(pool, c) && call == Free(pool[c]) ==> !Held(Effect(pool, call), c)
  {
    BlankEmpty();
    if FreeKeys(pool) != {} {
      assert FirstFree(pool) in FreeKeys(pool);
    }
  }

  lemma BlankEmpty()
    ensures Blank("")
  {
  }

  predicate Releases(log: seq<Entry>, owner: string) {
    exists e :: e in log && e.call == Free(owner)
  }

  /** Over any run: the keys never change, owners stay exclusive, and a held block keeps
      its owner until that owner's own release takes effect. */
  lemma {:induction false} ReplayKeepsOwners(pool: Pool, log: seq<Entry>)
    ensures Replay(pool, log).Keys == pool.Keys
    ensures Exclusive(pool) ==> Exclusive(Replay(pool, log))
    ensures forall c :: Held(pool, c) && !Releases(log, pool[c])
              ==> Held(Replay(pool, log), c) && Replay(pool, log)[c] == pool[c]
  {
    if log != [] {
      var next := Effect(pool, log[0].call);
      EffectKeys(pool, log[0].call);
      EffectKeepsOwners(pool, log[0].call);
      assert forall e :: e in log[1..] ==> e in log;
      ReplayKeepsOwners(next, log[1..]);
      forall c | Held(pool, c) && !Releases(log, pool[c])
        ensures Held(Replay(pool, log), c) && Replay(pool, log)[c] == pool[c]
      {
        assert log[0] in log;
      }
    }
  }

  /** Two successful allocations for one owner, with no release of that owner taking effect
      between them, return the same block whatever all other owners do. */
  lemma AllocateIdempotent(pool: Pool, first: Entry, between: seq<Entry>, second: Entry)
    requires Exclusive(pool)
    requires !Blank(first.call.owner)
    requires Sequential(pool, [first] + between + [second])
    requires first.call.Alloc? && second.call == first.call && first.result.Got? && second.result.Got?
    requires !Releases(between, first.call.owner)
    ensures second.result == first.result
  {
    var o := first.call.owner;
    var log := [first] + between;
    SequentialConcat(pool, log, [second]);
    assert log[1..] == between;
    var p1 := Effect(pool, first.call);
    EffectKeepsOwners(pool, first.call);
    assert Held(p1, first.result.cidr) && p1[first.result.cidr] == o;
    ReplayKeepsOwners(p1, between);
    var p2 := Replay(p1, between);
    assert Held(p2, first.result.cidr) && p2[first.result.cidr] == o;
    assert OwnsAny(p2, o);
  }

  /** A block handed out to an owner that held none is free in, and the least free block of,
      the pool it is committed against. */
  lemma FreshBlockIsLeast(pool: Pool, owner: string, c: string)
    requires owner != "" && !OwnsAny(pool, owner)
    requires Answers(pool, Alloc(owner), Got(c))
    ensures c in pool && Blank(pool[c]) && forall d :: d in pool && Blank(pool[d]) && d != c ==> Less(c, d)
    ensures Effect(pool, Alloc(owner)) == pool[c := owner]
  {
    assert IsLeast(c, FreeKeys(pool));
  }

  lemma {:induction false} LogCalls(s: State, steps: seq<Step>)
    requires IsRun(s, steps)
    ensures forall id :: id in s.procs ==> id in Exec(s, steps).procs && Exec(s, steps).procs[id].call == s.procs[id].call
    ensures forall e :: e in Log(s, steps) ==> e.id in Exec(s, steps).procs && Exec(s, steps).procs[e.id].call == e.call
    decreases |steps|
  {
    if steps != [] {
      LogCalls(Apply(s, steps[0]), steps[1..]);
    }
  }

  /** The same facts about the interleaved protocol itself. */
  lemma ProtocolKeepsOwners(s: State, steps: seq<Step>)
    requires Inv(s) && Exclusive(s.pool) && IsRun(s, steps)
    ensures Exec(s, steps).pool.Keys == s.pool.Keys
    ensures |FreeKeys(Exec(s, steps).pool)| + |HeldKeys(Exec(s, steps).pool)| == |s.pool|
    ensures Exclusive(Exec(s, steps).pool)
    ensures forall c :: Held(s.pool, c) && !Releases(Log(s, steps), s.pool[c])
              ==> c in Exec(s, steps).pool && Exec(s, steps).pool[c] == s.pool[c]
  {
    Linearizable(s, steps);
    ReplayKeepsOwners(s.pool, Log(s, steps));
    var p := Exec(s, steps).pool;
    assert FreeKeys(p) + HeldKeys(p) == p.Keys;
  }

  lemma {:induction false} EntryAt(id: nat, log: seq<Entry>) returns (k: nat)
    requires EntriesOf(id, log) != []
    ensures k < |log| && log[k] == EntriesOf(id, log)[0]
  {
    if log[0].id == id {
      k := 0;
    } else {
      k := EntryAt(id, log[1..]);
      k := k + 1;
    }
  }

  /** In a sequential run without a release for their owner, two allocations get the same block. */
  lemma SameBlockInOrder(pool: Pool, log: seq<Entry>, i: nat, j: nat)
    requires Exclusive(pool) && Sequential(pool, log)
    requires i < j < |log| && log[i].call.Alloc? && log[j].call == log[i].call
    requires !Blank(log[i].call.owner) && !Releases(log, log[i].call.owner)
    requires log[i].result.Got? && log[j].result.Got?
    ensures log[i].result == log[j].result
  {
    hide Sequential, Replay, Exclusive, Releases;
    var pre, between, post := log[..i], log[i+1..j], log[j+1..];
    var middle := [log[i]] + between + [log[j]];
    assert log == pre + (middle + post);
    NoneReleased(log, between, log[i].call.owner);
    SequentialConcat(pool, pre, middle + post);
    ReplayKeepsOwners(pool, pre);
    SequentialConcat(Replay(pool, pre), middle, post);
    AllocateIdempotent(Replay(pool, pre), log[i], between, log[j]);
  }

  lemma NoneReleased(log: seq<Entry>, part: seq<Entry>, owner: string)
    requires !Releases(log, owner) && forall e :: e in part ==> e in log
    ensures !Releases(part, owner)
  {
  }

  /** Two calls of the protocol that both allocate for one owner get the same block, from any
      processes and whatever the other owners do, if no release for that owner takes effect meanwhile. */
  lemma SameOwnerSameBlock(s: State, steps: seq<Step>, one: nat, two: nat, owner: string, c: string, d: string)
    requires Inv(s) && Exclusive(s.pool) && IsRun(s, steps) && !Blank(owner) && one != two
    requires forall id :: id in s.procs && (id == one || id == two) ==> !s.procs[id].phase.Done?
    requires one in Exec(s, steps).procs && Exec(s, steps).procs[one] == Proc(Alloc(owner), Done(Got(c)))
    requires two in Exec(s, steps).procs && Exec(s, steps).procs[two] == Proc(Alloc(owner), Done(Got(d)))
    requires !Releases(Log(s, steps), owner)
    ensures c == d
  {
    hide Apply, Enabled, Decided, Inv, Exec, Log, Sequential, Replay, EntriesOf;
    var log := Log(s, steps);
    Linearizable(s, steps);
    LogCalls(s, steps);
    EachCallOnce(s, steps, one);
    EachCallOnce(s, steps, two);
    var i := EntryAt(one, log);
    var j := EntryAt(two, log);
    if i < j {
      SameBlockInOrder(s.pool, log, i, j);
    } else {
      SameBlockInOrder(s.pool, log, j, i);
    }
  }

  /** A block never passes straight from one owner to another: if a run starts and ends with it
      held by different owners, it is free after some prefix of that run. */
  lemma {:induction false} FreedBeforeReuse(s: State, steps: seq<Step>, c: string) returns (k: nat)
    requires Inv(s) && IsRun(s, steps)
    requires Held(s.pool, c) && Held(Exec(s, steps).pool, c) && Exec(s, steps).pool[c] != s.pool[c]
    ensures k <= |steps| && IsRun(s, steps[..k]) && c in FreeKeys(Exec(s, steps[..k]).pool)
    decreases |steps|
  {
    hide Apply, Enabled, Decided, Inv, Log;
    var t := Apply(s, steps[0]);
    StepPool(s, steps, c);
    StepSimulates(s, steps[0]);
    if Held(t.pool, c) {
      var j := FreedBeforeReuse(t, steps[1..], c);
      k := j + 1;
      assert steps[..k][1..] == steps[1..][..j];
    } else {
      k := 1;
      assert steps[..1][1..] == [];
    }
  }

  lemma StepPool(s: State, steps: seq<Step>, c: string)
    requires Inv(s) && IsRun(s, steps) && steps != []
    requires Held(s.pool, c)
    ensures c in Apply(s, steps[0]).pool
    ensures Held(Apply(s, steps[0]).pool, c) ==> Apply(s, steps[0]).pool[c] == s.pool[c]
  {
    hide Apply, Enabled, Inv;
    StepSimulates(s, steps[0]);
    var now := Decided(s, steps[0]);
    if now != [] {
      assert now == [now[0]] && now[1..] == [];
      EffectKeepsOwners(s.pool, now[0].call);
      EffectKeys(s.pool, now[0].call);
    }
  }

  function HeldKeys(pool: Pool): set<string> {
    set c | c in pool && !Blank(pool[c])
  }

  /** An owner made only of white space is accepted, but its block still counts as free:
      after the call, the block is held exactly when the owner is not blank. */
  lemma HeldIffRealOwner(pool: Pool, owner: string)
    requires owner != "" && !OwnsAny(pool, owner) && FreeKeys(pool) != {}
    ensures Held(Effect(pool, Alloc(owner)), FirstFree(pool)) <==> !Blank(owner)
    ensures Blank(owner) ==> FirstFree(Effect(pool, Alloc(owner))) == FirstFree(pool)
  {
    var c := FirstFree(pool);
    assert IsLeast(c, FreeKeys(pool));
    var q := Effect(pool, Alloc(owner));
    if Blank(owner) {
      assert FreeKeys(q) == FreeKeys(pool);
      LeastUnique(c, FirstFree(q), FreeKeys(q));
    }
  }

  /** Concretely: a blank owner's block is given away while it still believes it owns it. */
  lemma BlankOwnerLosesItsBlock()
    ensures Sequential(map["10.16.0.0/22" := ""],
              [Entry(0, Alloc(" "), Got("10.16.0.0/22")), Entry(1, Alloc("w"), Got("10.16.0.0/22"))])
  {
    var c := "10.16.0.0/22";
    var p0: Pool := map[c := ""];
    var p1: Pool := map[c := " "];
    assert TrimLeft(" ") == TrimLeft("");
    assert FreeKeys(p0) == {c} && FreeKeys(p1) == {c};
    assert !OwnsAny(p0, " ") && !OwnsAny(p1, "w");
    assert Effect(p0, Alloc(" ")) == p1;
    var log := [Entry(0, Alloc(" "), Got(c)), Entry(1, Alloc("w"), Got(c))];
    assert log[1..] == [Entry(1, Alloc("w"), Got(c))] && log[1..][1..] == [];
  }
}

/** `Pool.Allocate` and `Pool.Release` as the loops they are, run against a store that other
    processes write to between any two requests. */
module IpamPool {
  import opened Strings
  import opened Ipam
  import opened Sequences
  import Sorting

  /** What the environment does when one request arrives: the pools other processes commit
      before it is served, and how the request itself fares. */
  datatype Turn = Turn(others: seq<Pool>, fate: Fate)

  /** How the n-th request from here fares; past the end of the script, requests are answered. */
  function FateAt(script: seq<Turn>, n: nat): Fate {
    if n < |script| then script[n].fate else Answered
  }

  lemma RestFate(script: seq<Turn>, n: nat, k: nat)
    ensures FateAt(Rest(script, n), k) == FateAt(script, n + k)
    ensures Rest(Rest(script, n), k) == Rest(script, n + k)
  {
  }

  predicate Arrives(fate: Fate) {
    fate == Answered || fate == AnswerLost
  }

  /** The versioned store: compare-and-swap succeeds exactly when the version still matches. */
  class Kv {
    var pool: Pool
    var version: nat
    var script: seq<Turn>
    ghost var history: seq<Pool>  // the pool at every version so far
    ghost var mine: set<nat>      // the versions written through this object

    ghost predicate Valid()
      reads this
    {
      && |history| == version + 1 && history[version] == pool
      && forall v :: v in mine ==> v <= version
    }

    constructor (pool: Pool, version: nat, script: seq<Turn>)
      ensures Valid() && this.pool == pool && this.version == version && this.script == script && mine == {}
    {
      this.pool, this.version, this.script := pool, version, script;
      history := seq(version + 1, _ => pool);
      mine := {};
    }

    method Serve() returns (fate: Fate)
      requires Valid()
      modifies this
      ensures Valid() && old(history) <= history && mine == old(mine)
      ensures fate == FateAt(old(script), 0) && script == Rest(old(script), 1)
      ensures old(script) == [] ==> history == old(history)
      ensures old(script) != [] ==> history == old(history) + old(script)[0].others
    {
      if script == [] {
        return Answered;
      }
      var turn, rest := script[0], script[1..];
      for i := 0 to |turn.others|
        invariant Valid() && history == old(history) + turn.others[..i] && mine == old(mine) && script == old(script)
      {
        pool, version := turn.others[i], version + 1;
        history := history + [pool];
      }
      script := rest;
      return turn.fate;
    }

    method Read() returns (ok: bool, snapshot: Pool, seen: nat)
      requires Valid()
      modifies this
      ensures Valid() && old(history) <= history && mine == old(mine)
      ensures seen == version && snapshot == pool
      ensures (ok <==> FateAt(old(script), 0) == Answered) && script == Rest(old(script), 1)
    {
      var fate := Serve();
      return fate == Answered, pool, version;
    }

    method CASWrite(next: Pool, expected: nat) returns (ok: bool, conflict: bool)
      requires Valid() && expected <= version
      modifies this
      ensures Valid() && old(history) <= history
      ensures mine == old(mine) || (expected + 1 == version && history[expected + 1] == next && mine == old(mine) + {version})
      ensures ok && conflict ==> mine == old(mine) && expected < version
      ensures ok && !conflict ==> expected + 1 == version && pool == next && mine == old(mine) + {version}
      ensures (ok <==> FateAt(old(script), 0) == Answered) && script == Rest(old(script), 1)
      ensures !Arrives(FateAt(old(script), 0)) ==> mine == old(mine) && !conflict
      ensures Arrives(FateAt(old(script), 0)) && !conflict ==> mine == old(mine) + {version}
    {
      var fate := Serve();
      if fate == RequestLost || fate == Delayed {
        return false, false;
      }
      if expected != version {
        return fate == Answered, true;
      }
      pool, version := next, version + 1;
      history := history + [next];
      mine := mine + {version};
      return fate == Answered, false;
    }
  }

  method OwnedBy(pool: Pool, owner: string) returns (cidr: string)
    ensures MayPick(pool, owner, cidr)
  {
    var todo := pool.Keys;
    while todo != {}
      invariant todo <= pool.Keys
      invariant forall c :: c in pool && c !in todo ==> pool[c] != owner
      decreases todo
    {
      var c :| c in todo;
      if pool[c] == owner {
        return c;
      }
      todo := todo - {c};
    }
    return "";
  }

  method FirstFreeOf(pool: Pool) returns (cidr: string)
    ensures cidr == FirstFree(pool)
  {
    var free: seq<string> := [];
    var todo := pool.Keys;
    while todo != {}
      invariant todo <= pool.Keys
      invariant forall c :: c in free <==> c in FreeKeys(pool) && c !in todo
      decreases todo
    {
      var c :| c in todo;
      if Blank(pool[c]) {
        free := free + [c];
      }
      todo := todo - {c};
    }
    if |free| == 0 {
      return "";
    }
    LessIsStrictWeak();
    Sorting.StableSortCorrect(Less, free);
    var sorted := Sorting.StableSort(Less, free);
    assert sorted[0] in multiset(free);
    forall c | c in FreeKeys(pool) && c != sorted[0] ensures Less(sorted[0], c) {
      assert c in multiset(sorted);
      Sorting.Minimal(Less, sorted, c);
      LessTotal(c, sorted[0]);
    }
    LeastUnique(sorted[0], FirstFree(pool), FreeKeys(pool));
    return sorted[0];
  }

  lemma LessIsStrictWeak()
    ensures Sorting.StrictWeak(Less)
  {
    forall a, b, c
      ensures !Less(a, a)
      ensures Less(a, b) && Less(b, c) ==> Less(a, c)
      ensures !Less(a, b) && !Less(b, c) ==> !Less(a, c)
    {
      LessTotal(a, b);
      LessTotal(b, c);
      LessTotal(a, c);
      if Less(a, b) && Less(b, c) { LessTransitive(a, b, c); }
      if Less(a, c) && Less(c, b) { LessTransitive(a, c, b); }
    }
  }

  method FreeAll(snapshot: Pool, owner: string) returns (pool: Pool, changed: bool)
    requires owner != ""
    ensures pool == ReleaseAll(snapshot, owner)
    ensures changed <==> OwnsAny(snapshot, owner)
  {
    pool, changed := snapshot, false;
    var todo := snapshot.Keys;
    while todo != {}
      invariant todo <= snapshot.Keys == pool.Keys
      invariant forall c :: c in todo ==> pool[c] == snapshot[c]
      invariant forall c :: c in snapshot && c !in todo ==> pool[c] == if snapshot[c] == owner then "" else snapshot[c]
      invariant changed <==> exists c :: c in snapshot && c !in todo && snapshot[c] == owner
      decreases todo
    {
      var c :| c in todo;
      if pool[c] == owner {
        pool := pool[c := ""];
        changed := true;
      }
      todo := todo - {c};
    }
  }

  /** A call that decided on version v: it either only looked, or wrote version v + 1 itself. */
  ghost predicate DecidesAt(history: seq<Pool>, mine0: set<nat>, mine: set<nat>, call: Call, r: Result, v: nat, pick: string) {
    && v < |history|
    && (call.Alloc? ==> MayPick(history[v], call.owner, pick))
    && match Decide(history[v], call, pick)
       case Return(answer) => r == answer && mine == mine0
       case Commit(next, answer) =>
         r == answer && v + 1 < |history| && history[v + 1] == next && mine == mine0 + {v + 1}
  }

  /** What a call has done, by the answer it gives; `from` is the number of versions that existed when it was made. */
  ghost predicate Outcome(history: seq<Pool>, from: nat, mine0: set<nat>, mine: set<nat>, call: Call, r: Result, maxRetries: nat) {
    match r
    case EmptyOwner => call.owner == "" && mine == mine0
    case ReadFailed => mine == mine0
    case RetriesExhausted => mine == mine0 && |history| >= from + maxRetries
    case WriteFailed =>
      mine == mine0 || exists v: nat, pick, answer :: from <= v + 1 && DecidesAt(history, mine0, mine, call, answer, v, pick)
    case Died => false
    case _ => call.owner != "" && exists v: nat, pick :: from <= v + 1 && DecidesAt(history, mine0, mine, call, r, v, pick)
  }

  /** A call that has made n requests, each attempt a read and then a write: all were answered except,
      when it failed, the last; a failed read is an odd request and a failed write an even one. */
  predicate MadeRequests(script: seq<Turn>, after: seq<Turn>, n: nat, owner: string, r: Result, maxRetries: nat) {
    && after == Rest(script, n)
    && (forall k :: 0 <= k < n - 1 ==> FateAt(script, k) == Answered)
    && (r == ReadFailed <==> n % 2 == 1 && FateAt(script, n - 1) != Answered)
    && (r == WriteFailed <==> n > 0 && n % 2 == 0 && FateAt(script, n - 1) != Answered)
    && (r == EmptyOwner <==> owner == "") && (owner == "" ==> n == 0)
    && (r == RetriesExhausted ==> n == 2 * maxRetries)
  }

  ghost predicate Served(script: seq<Turn>, after: seq<Turn>, owner: string, r: Result, maxRetries: nat) {
    exists n: nat :: MadeRequests(script, after, n, owner, r, maxRetries)
  }

  /** So a call fails to read or write only when a request of its own is not answered. */
  lemma NoFailureWhenAnswered(script: seq<Turn>, after: seq<Turn>, owner: string, r: Result, maxRetries: nat)
    requires Served(script, after, owner, r, maxRetries)
    requires forall turn :: turn in script ==> turn.fate == Answered
    ensures r != ReadFailed && r != WriteFailed
  {
    var n: nat :| MadeRequests(script, after, n, owner, r, maxRetries);
    assert n > 0 ==> FateAt(script, n - 1) == Answered;
  }

  /** The first n requests of the script have been made and answered. */
  ghost predicate Answering(script: seq<Turn>, now: seq<Turn>, n: nat) {
    now == Rest(script, n) && forall k :: 0 <= k < n ==> FateAt(script, k) == Answered
  }

  lemma NoneMade(script: seq<Turn>)
    ensures Answering(script, script, 0)
  {
  }

  lemma OneMore(script: seq<Turn>, now: seq<Turn>, n: nat)
    requires Answering(script, now, n) && FateAt(now, 0) == Answered
    ensures Answering(script, Rest(now, 1), n + 1)
  {
    RestFate(script, n, 0);
    RestFate(script, n, 1);
  }

  lemma EndsAnswered(script: seq<Turn>, now: seq<Turn>, n: nat, owner: string, r: Result, maxRetries: nat)
    requires Answering(script, now, n) && r != ReadFailed && r != WriteFailed
    requires (r == EmptyOwner <==> owner == "") && (owner == "" ==> n == 0) && (r == RetriesExhausted ==> n == 2 * maxRetries)
    ensures Served(script, now, owner, r, maxRetries)
  {
    assert n > 0 ==> FateAt(script, n - 1) == Answered;
    assert n == 0 ==> n % 2 != 1;
    assert MadeRequests(script, now, n, owner, r, maxRetries);
  }

  lemma EndsUnanswered(script: seq<Turn>, now: seq<Turn>, n: nat, attempt: nat, owner: string, r: Result, maxRetries: nat)
    requires Answering(script, now, n) && FateAt(now, 0) != Answered && owner != ""
    requires (r == ReadFailed && n == 2 * attempt) || (r == WriteFailed && n == 2 * attempt + 1)
    ensures Served(script, Rest(now, 1), owner, r, maxRetries)
  {
    RestFate(script, n, 0);
    RestFate(script, n, 1);
    assert MadeRequests(script, Rest(now, 1), n + 1, owner, r, maxRetries);
  }

  /** What a call has shown when it returns without a write of its own, and when it has written. */
  lemma NothingWritten(history: seq<Pool>, from: nat, mine: set<nat>, call: Call, maxRetries: nat)
    ensures Outcome(history, from, mine, mine, call, ReadFailed, maxRetries)
    ensures Outcome(history, from, mine, mine, call, WriteFailed, maxRetries)
    ensures call.owner == "" ==> Outcome(history, from, mine, mine, call, EmptyOwner, maxRetries)
    ensures |history| >= from + maxRetries ==> Outcome(history, from, mine, mine, call, RetriesExhausted, maxRetries)
  {
  }

  lemma AllocLooked(history: seq<Pool>, from: nat, mine: set<nat>, owner: string, v: nat, pick: string, maxRetries: nat)
    requires from <= v + 1 && v < |history| && MayPick(history[v], owner, pick) && owner != ""
    ensures pick != "" ==> Outcome(history, from, mine, mine, Alloc(owner), Got(pick), maxRetries)
    ensures pick == "" && FirstFree(history[v]) == "" ==> Outcome(history, from, mine, mine, Alloc(owner), PoolExhausted, maxRetries)
  {
    if pick != "" {
      assert DecidesAt(history, mine, mine, Alloc(owner), Got(pick), v, pick);
    } else if FirstFree(history[v]) == "" {
      assert DecidesAt(history, mine, mine, Alloc(owner), PoolExhausted, v, pick);
    }
  }

  lemma AllocWrote(history: seq<Pool>, from: nat, mine: set<nat>, owner: string, v: nat, free: string, maxRetries: nat)
    requires from <= v + 1 < |history| && MayPick(history[v], owner, "") && owner != ""
    requires free == FirstFree(history[v]) != "" && history[v + 1] == history[v][free := owner]
    ensures Outcome(history, from, mine, mine + {v + 1}, Alloc(owner), Got(free), maxRetries)
    ensures Outcome(history, from, mine, mine + {v + 1}, Alloc(owner), WriteFailed, maxRetries)
  {
    assert DecidesAt(history, mine, mine + {v + 1}, Alloc(owner), Got(free), v, "");
  }

  lemma FreeLooked(history: seq<Pool>, from: nat, mine: set<nat>, owner: string, v: nat, maxRetries: nat)
    requires from <= v + 1 && v < |history| && !OwnsAny(history[v], owner) && owner != ""
    ensures Outcome(history, from, mine, mine, Free(owner), Freed, maxRetries)
  {
    assert DecidesAt(history, mine, mine, Free(owner), Freed, v, "");
  }

  lemma FreeWrote(history: seq<Pool>, from: nat, mine: set<nat>, owner: string, v: nat, maxRetries: nat)
    requires from <= v + 1 < |history| && OwnsAny(history[v], owner) && owner != ""
    requires history[v + 1] == ReleaseAll(history[v], owner)
    ensures Outcome(history, from, mine, mine + {v + 1}, Free(owner), Freed, maxRetries)
    ensures Outcome(history, from, mine, mine + {v + 1}, Free(owner), WriteFailed, maxRetries)
  {
    assert DecidesAt(history, mine, mine + {v + 1}, Free(owner), Freed, v, "");
  }

  class Allocator {
    const kv: Kv
    const maxRetries: nat

    constructor (kv: Kv)
      ensures this.kv == kv && maxRetries == 6
    {
      this.kv, this.maxRetries := kv, 6;
    }

    /** Whatever the other processes do meanwhile, the answer is the atomic decision on one
        version of the pool that was current during the call, and a failure to read or write is
        one of the store's. */
    method Allocate(owner: string) returns (r: Result)
      requires kv.Valid()
      modifies kv
      ensures kv.Valid() && old(kv.history) <= kv.history
      ensures Outcome(kv.history, |old(kv.history)|, old(kv.mine), kv.mine, Alloc(owner), r, maxRetries)
      ensures Served(old(kv.script), kv.script, owner, r, maxRetries)
    {
      hide Answering, Served, FateAt, Rest, Outcome, MayPick, FirstFree, OwnsAny, ReleaseAll;
      ghost var script, from, mine := kv.script, |kv.history|, kv.mine;
      NoneMade(script);
      if owner == "" {
        NothingWritten(kv.history, from, mine, Alloc(owner), maxRetries);
        EndsAnswered(script, kv.script, 0, owner, EmptyOwner, maxRetries);
        return EmptyOwner;
      }
      for attempt := 0 to maxRetries
        invariant kv.Valid() && old(kv.history) <= kv.history && kv.mine == old(kv.mine)
        invariant |kv.history| >= |old(kv.history)| + attempt
        invariant Answering(script, kv.script, 2 * attempt)
      {
        ghost var before := kv.script;
        var ok, pool, seen := kv.Read();
        NothingWritten(kv.history, from, mine, Alloc(owner), maxRetries);
        if !ok {
          EndsUnanswered(script, before, 2 * attempt, attempt, owner, ReadFailed, maxRetries);
          return ReadFailed;
        }
        OneMore(script, before, 2 * attempt);
        var cidr := OwnedBy(pool, owner);
        if cidr != "" {
          AllocLooked(kv.history, from, mine, owner, seen, cidr, maxRetries);
          EndsAnswered(script, kv.script, 2 * attempt + 1, owner, Got(cidr), maxRetries);
          return Got(cidr);
        }
        var free := FirstFreeOf(pool);
        if free == "" {
          AllocLooked(kv.history, from, mine, owner, seen, cidr, maxRetries);
          EndsAnswered(script, kv.script, 2 * attempt + 1, owner, PoolExhausted, maxRetries);
          return PoolExhausted;
        }
        label read:
        assert kv.history[seen] == pool;
        before := kv.script;
        var written, conflict := kv.CASWrite(pool[free := owner], seen);
        assert kv.history[seen] == old@read(kv.history)[seen];
        if kv.mine == mine {
          NothingWritten(kv.history, from, mine, Alloc(owner), maxRetries);
        } else {
          AllocWrote(kv.history, from, mine, owner, seen, free, maxRetries);
        }
        if !written {
          EndsUnanswered(script, before, 2 * attempt + 1, attempt, owner, WriteFailed, maxRetries);
          return WriteFailed;
        }
        OneMore(script, before, 2 * attempt + 1);
        if !conflict {
          EndsAnswered(script, kv.script, 2 * attempt + 2, owner, Got(free), maxRetries);
          return Got(free);
        }
      }
      NothingWritten(kv.history, from, mine, Alloc(owner), maxRetries);
      EndsAnswered(script, kv.script, 2 * maxRetries, owner, RetriesExhausted, maxRetries);
      return RetriesExhausted;
    }

    method Release(owner: string) returns (r: Result)
      requires kv.Valid()
      modifies kv
      ensures kv.Valid() && old(kv.history) <= kv.history
      ensures Outcome(kv.history, |old(kv.history)|, old(kv.mine), kv.mine, Free(owner), r, maxRetries)
      ensures Served(old(kv.script), kv.script, owner, r, maxRetries)
    {
      hide Answering, Served, FateAt, Rest, Outcome, MayPick, FirstFree, OwnsAny, ReleaseAll;
      ghost var script, from, mine := kv.script, |kv.history|, kv.mine;
      NoneMade(script);
      if owner == "" {
        NothingWritten(kv.history, from, mine, Free(owner), maxRetries);
        EndsAnswered(script, kv.script, 0, owner, EmptyOwner, maxRetries);
        return EmptyOwner;
      }
      for attempt := 0 to maxRetries
        invariant kv.Valid() && old(kv.history) <= kv.history && kv.mine == old(kv.mine)
        invariant |kv.history| >= |old(kv.history)| + attempt
        invariant Answering(script, kv.script, 2 * attempt)
      {
        ghost var before := kv.script;
        var ok, pool, seen := kv.Read();
        NothingWritten(kv.history, from, mine, Free(owner), maxRetries);
        if !ok {
          EndsUnanswered(script, before, 2 * attempt, attempt, owner, ReadFailed, maxRetries);
          return ReadFailed;
        }
        OneMore(script, before, 2 * attempt);
        var next, changed := FreeAll(pool, owner);
        if !changed {
          FreeLooked(kv.history, from, mine, owner, seen, maxRetries);
          EndsAnswered(script, kv.script, 2 * attempt + 1, owner, Freed, maxRetries);
          return Freed;
        }
        label read:
        assert kv.history[seen] == pool;
        before := kv.script;
        var written, conflict := kv.CASWrite(next, seen);
        assert kv.history[seen] == old@read(kv.history)[seen];
        if kv.mine == mine {
          NothingWritten(kv.history, from, mine, Free(owner), maxRetries);
        } else {
          FreeWrote(kv.history, from, mine, owner, seen, maxRetries);
        }
        if !written {
          EndsUnanswered(script, before, 2 * attempt + 1, attempt, owner, WriteFailed, maxRetries);
          return WriteFailed;
        }
        OneMore(script, before, 2 * attempt + 1);
        if !conflict {
          EndsAnswered(script, kv.script, 2 * attempt + 2, owner, Freed, maxRetries);
          return Freed;
        }
      }
      NothingWritten(kv.history, from, mine, Free(owner), maxRetries);
      EndsAnswered(script, kv.script, 2 * maxRetries, owner, RetriesExhausted, maxRetries);
      return RetriesExhausted;
    }
  }

  /** The contract of the loops read in terms of the atomic allocator: on pools whose empty key (if
      there is one) plays no part for this owner, the decided answer is an atomic answer on a current version, and the only
      version the call wrote, if any, is its atomic effect on the one before. */
  lemma OutcomeIsAtomic(history: seq<Pool>, from: nat, mine0: set<nat>, mine: set<nat>,
                        call: Call, r: Result, maxRetries: nat)
    requires Outcome(history, from, mine0, mine, call, r, maxRetries)
    requires forall v :: 0 <= v < |history| ==> EmptyKeyInert(history[v], call.owner)
    requires forall v :: v in mine0 ==> v < from
    ensures r.Got? || r.Freed? || r.PoolExhausted? ==>
              exists v: nat :: from <= v + 1 <= |history| && Answers(history[v], call, r)
                && (mine == mine0 ==> Effect(history[v], call) == history[v])
                && (mine != mine0 ==> v + 1 < |history| && mine == mine0 + {v + 1} && history[v + 1] == Effect(history[v], call))
  {
    if r.Got? || r.Freed? || r.PoolExhausted? {
      var v: nat, pick :| from <= v + 1 && DecidesAt(history, mine0, mine, call, r, v, pick);
      DecideIsAtomic(history[v], call, pick);
      assert v + 1 !in mine0;
      assert Answers(history[v], call, r);
    }
  }

  /** The empty key is read as "none". So the code does what the atomic allocator does exactly unless
      it looks up no block for the owner and the empty key is free (the pool then seems exhausted) or
      the owner's own (the owner then gets a second block). */
  lemma EmptyKeyExactly(pool: Pool, owner: string, pick: string)
    requires owner != "" && MayPick(pool, owner, pick)
    ensures IsAtomic(pool, owner, pick) <==> !(pick == "" && "" in pool && (Blank(pool[""]) || pool[""] == owner))
    ensures pick == "" && "" in FreeKeys(pool) ==> Decide(pool, Alloc(owner), pick) == Return(PoolExhausted)
    ensures pick == "" && "" in pool && pool[""] == owner && !Blank(owner) && FreeKeys(pool) != {} ==>
              var f := FirstFree(pool);
              Decide(pool, Alloc(owner), pick) == Commit(pool[f := owner], Got(f)) && f != "" && pool[f := owner][""] == owner
  {
    if FreeKeys(pool) != {} {
      var f := FirstFree(pool);
      assert IsLeast(f, FreeKeys(pool));
      if "" in FreeKeys(pool) {
        assert !Less(f, "");
      }
      assert Blank(pool[f]);
    }
    assert "" in pool && pool[""] == owner ==> OwnsAny(pool, owner);
    if pick != "" {
      assert IsAtomic(pool, owner, pick);
    } else if OwnsAny(pool, owner) {
      assert !IsAtomic(pool, owner, pick);
    } else if "" in pool && Blank(pool[""]) {
      assert "" in FreeKeys(pool);
      assert !IsAtomic(pool, owner, pick);
    } else {
      assert "" !in FreeKeys(pool);
      assert IsAtomic(pool, owner, pick);
    }
  }

  /** The decision is the atomic allocator's answer and effect on this pool. */
  ghost predicate IsAtomic(pool: Pool, owner: string, pick: string) {
    var d := Decide(pool, Alloc(owner), pick);
    && Answers(pool, Alloc(owner), d.result)
    && Effect(pool, Alloc(owner)) == if d.Commit? then d.next else pool
  }
}

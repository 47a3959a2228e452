/** The account jobs as sequential code: provisioning allocates a block and then hands it to the
    cloud provider, destroying releases only after the provider has torn down. */
module Account {
  import opened Sequences
  import Ipam
  import IpamPool

  datatype Event =
    | SetStatus(ws: string, status: string)
    | AllocateReturned(ws: string, result: Ipam.Result)
    | ProvisionReturned(ws: string, cidr: string, ok: bool)
    | DestroyReturned(ws: string, ok: bool)
    | ReleaseReturned(ws: string, result: Ipam.Result)

  /** How the lookups that precede a job end: no such resource, or no provider able to run it. */
  datatype Lookup = NoResource | NoProvisioner | Ready

  /** What one provisioning job does, in order, once its lookups have succeeded. */
  function ProvisionTrace(ws: string, createVPC: bool, explicit: string, hasIpam: bool, r: Ipam.Result, ok: bool): seq<Event> {
    var allocate := createVPC && explicit == "";
    [SetStatus(ws, "provisioning")] +
    if allocate && !hasIpam then [SetStatus(ws, "failed")]
    else if allocate && !r.Got? then [AllocateReturned(ws, r), SetStatus(ws, "failed")]
    else (if allocate then [AllocateReturned(ws, r)] else [])
         + [ProvisionReturned(ws, if allocate then r.cidr else explicit, ok), SetStatus(ws, if ok then "ready" else "failed")]
  }

  /** What one destroy job does, in order, once its lookups have succeeded. */
  function DestroyTrace(ws: string, hasIpam: bool, r: Ipam.Result, ok: bool): seq<Event> {
    if !ok then [SetStatus(ws, "destroying"), DestroyReturned(ws, false), SetStatus(ws, "failed")]
    else [SetStatus(ws, "destroying"), DestroyReturned(ws, true)]
         + (if hasIpam then [ReleaseReturned(ws, r)] else []) + [SetStatus(ws, "destroyed")]
  }

  /** The provider is handed the explicit block, or else the one the allocation just before returned. */
  lemma ProvisionUsesItsBlock(ws: string, createVPC: bool, explicit: string, hasIpam: bool, r: Ipam.Result, ok: bool, i: nat)
    requires var t := ProvisionTrace(ws, createVPC, explicit, hasIpam, r, ok); i < |t| && t[i].ProvisionReturned?
    ensures var t := ProvisionTrace(ws, createVPC, explicit, hasIpam, r, ok);
            if createVPC && explicit == "" then i > 0 && t[i-1] == AllocateReturned(ws, Ipam.Got(t[i].cidr))
            else t[i].cidr == explicit && forall e :: e in t ==> !e.AllocateReturned?
  {
  }

  /** A release follows a successful teardown at once, and so does the status "destroyed" at one remove. */
  lemma ReleaseFollowsTeardown(ws: string, hasIpam: bool, r: Ipam.Result, ok: bool, i: nat)
    requires i < |DestroyTrace(ws, hasIpam, r, ok)|
    ensures var t := DestroyTrace(ws, hasIpam, r, ok);
      && (t[i].ReleaseReturned? ==> i > 0 && t[i-1] == DestroyReturned(ws, true))
      && (t[i] == SetStatus(ws, "destroyed") ==> DestroyReturned(ws, true) in t[..i] && (hasIpam ==> t[i-1].ReleaseReturned?))
  {
    assert |"destroyed"| == 9 && |"destroying"| == 10 && |"failed"| == 6;
    var t := DestroyTrace(ws, hasIpam, r, ok);
    if ok { assert t[1] == DestroyReturned(ws, true); }
  }

  /** Does the job get as far as the provider: with an explicit block, none at all, or an allocated one? */
  predicate ReachesProvider(lookup: Lookup, createVPC: bool, explicit: string, hasIpam: bool, r: Ipam.Result) {
    lookup.Ready? && (!createVPC || explicit != "" || (hasIpam && r.Got?))
  }

  predicate NextOutcome(outcomes: seq<bool>) {
    outcomes == [] || outcomes[0]
  }

  class Service {
    const ipam: IpamPool.Allocator?
    var outcomes: seq<bool>       // how the cloud provider's coming calls end
    ghost var events: seq<Event>

    constructor (ipam: IpamPool.Allocator?, outcomes: seq<bool>)
      ensures this.ipam == ipam && this.outcomes == outcomes && events == []
    {
      this.ipam, this.outcomes, this.events := ipam, outcomes, [];
    }

    method CallProvider() returns (ok: bool)
      modifies this
      ensures events == old(events)
      ensures ok == NextOutcome(old(outcomes)) && outcomes == Rest(old(outcomes), 1)
    {
      ok := outcomes == [] || outcomes[0];
      outcomes := if outcomes == [] then [] else outcomes[1..];
    }

    method ProvisionAccount(lookup: Lookup, ws: string, createVPC: bool, explicit: string)
      returns (err: bool, ghost r: Ipam.Result, ghost ok: bool)
      requires ipam != null ==> ipam.kv.Valid()
      modifies this, if ipam != null then {ipam.kv} else {}
      ensures lookup.NoResource? ==> err && events == old(events)
      ensures lookup.NoProvisioner? ==> err && events == old(events) + [SetStatus(ws, "failed")]
      ensures lookup.Ready? ==>
        && events == old(events) + ProvisionTrace(ws, createVPC, explicit, ipam != null, r, ok)
        && events[|old(events)|] == SetStatus(ws, "provisioning")
        && events[|events| - 1] == SetStatus(ws, if err then "failed" else "ready")
      ensures var reached := ReachesProvider(lookup, createVPC, explicit, ipam != null, r);
        && (!err <==> reached && NextOutcome(old(outcomes))) && (reached ==> ok == NextOutcome(old(outcomes)))
        && outcomes == if reached then Rest(old(outcomes), 1) else old(outcomes)
      ensures ipam != null && lookup.Ready? && createVPC && explicit == "" ==>
        IpamPool.Outcome(ipam.kv.history, |old(ipam.kv.history)|, old(ipam.kv.mine), ipam.kv.mine, Ipam.Alloc(ws), r, ipam.maxRetries)
        && IpamPool.Served(old(ipam.kv.script), ipam.kv.script, ws, r, ipam.maxRetries)
      ensures ipam != null && !(lookup.Ready? && createVPC && explicit == "") ==>
        ipam.kv.mine == old(ipam.kv.mine) && ipam.kv.pool == old(ipam.kv.pool)
    {
      ghost var start := events;
      r, ok := Ipam.Died, false;
      if lookup == NoResource {
        return true, r, ok;
      }
      if lookup == NoProvisioner {
        events := events + [SetStatus(ws, "failed")];
        return true, r, ok;
      }
      events := events + [SetStatus(ws, "provisioning")];
      var cidr := explicit;
      if createVPC && cidr == "" {
        if ipam == null {
          events := events + [SetStatus(ws, "failed")];
          assert events == start + ProvisionTrace(ws, createVPC, explicit, false, r, false);
          return true, r, ok;
        }
        var answer := ipam.Allocate(ws);
        events := events + [AllocateReturned(ws, answer)];
        r := answer;
        if !answer.Got? {
          events := events + [SetStatus(ws, "failed")];
          assert events == start + ProvisionTrace(ws, createVPC, explicit, true, r, false);
          return true, r, ok;
        }
        cidr := answer.cidr;
      }
      var done := CallProvider();
      ok := done;
      events := events + [ProvisionReturned(ws, cidr, done), SetStatus(ws, if done then "ready" else "failed")];
      assert events == start + ProvisionTrace(ws, createVPC, explicit, ipam != null, r, ok);
      return !done, r, ok;
    }

    method DestroyAccount(lookup: Lookup, ws: string) returns (err: bool, ghost r: Ipam.Result, ghost ok: bool)
      requires ipam != null ==> ipam.kv.Valid()
      modifies this, if ipam != null then {ipam.kv} else {}
      ensures !lookup.Ready? ==> err && !ok && events == old(events)
      ensures lookup.Ready? ==>
        && ok == NextOutcome(old(outcomes)) && err == !ok
        && events == old(events) + DestroyTrace(ws, ipam != null, r, ok)
        && events[|old(events)|] == SetStatus(ws, "destroying")
        && events[|events| - 1] == SetStatus(ws, if NextOutcome(old(outcomes)) then "destroyed" else "failed")
      ensures outcomes == if lookup.Ready? then Rest(old(outcomes), 1) else old(outcomes)
      ensures ipam != null && ok ==>
        IpamPool.Outcome(ipam.kv.history, |old(ipam.kv.history)|, old(ipam.kv.mine), ipam.kv.mine, Ipam.Free(ws), r, ipam.maxRetries)
        && IpamPool.Served(old(ipam.kv.script), ipam.kv.script, ws, r, ipam.maxRetries)
      ensures ipam != null && !ok ==> ipam.kv.mine == old(ipam.kv.mine) && ipam.kv.pool == old(ipam.kv.pool)
    {
      ghost var start := events;
      r, ok := Ipam.Died, false;
      if lookup != Ready {
        return true, r, ok;
      }
      events := events + [SetStatus(ws, "destroying")];
      var done := CallProvider();
      ok := done;
      events := events + [DestroyReturned(ws, done)];
      if !done {
        events := events + [SetStatus(ws, "failed")];
        assert events == start + DestroyTrace(ws, ipam != null, r, false);
        return true, r, ok;
      }
      if ipam != null {
        var answer := ipam.Release(ws);
        r := answer;
        events := events + [ReleaseReturned(ws, answer)];
      }
      events := events + [SetStatus(ws, "destroyed")];
      assert events == start + DestroyTrace(ws, ipam != null, r, true);
      return false, r, ok;
    }
  }
}

/** The status of an IPSecConnection as the operator edits it: maps changed in place, loop by
    loop, proved against the functions of `Allocator`. */
module ConnectionStatus {
  import opened Api
  import opened Lists
  import opened Allocator

  class Connection {
    var children: Children
    var free: FreeIPs
    var pending: map<string, Stamp>
    var gateways: map<string, string>

    function CurrentStatus(): Status
      reads this
    {
      Status(free, pending, gateways)
    }

    constructor (children: Children, status: Status)
      ensures this.children == children && CurrentStatus() == status
    {
      this.children, free, pending, gateways := children, status.free, status.pending, status.gateways;
    }

    /** One refresh of the status from the spec, the pod list and the clock. The result is the
        time until the first reservation can expire, if any is left; the clock is read again for it. */
    method UpdateStatus(pods: seq<Pod>, now: nat, later: nat) returns (requeueIn: Option<int>)
      requires now <= later
      modifies this`free, this`pending
      ensures CurrentStatus() == Refreshed(children, old(CurrentStatus()), (set p | p in pods), now)
      ensures requeueIn.None? <==> pending == map[]
      ensures requeueIn.Some? ==>
        && requeueIn.value >= now - later
        && (exists ip :: ip in pending && requeueIn.value == Remaining(pending[ip], later))
        && forall ip :: ip in pending ==> requeueIn.value <= Remaining(pending[ip], later)
      ensures requeueIn.Some? ==>
        var due := later + requeueIn.value;
        && due >= 0 && (forall ip :: ip in pending ==> !Expired(pending[ip], due))
        && exists ip :: ip in pending && Expired(pending[ip], due + 1)
    {
      RebuildFree();
      var podIps := SeenAddresses(pods);
      ExpirePending(podIps, now);
      SubtractTaken(podIps);
      requeueIn := NextDeadline(later);
    }

    method PruneRemoved()
      modifies this`free
      ensures free == map c | c in old(free) && c in children :: old(free)[c]
    {
      ghost var before := free;
      var todo := free.Keys;
      while todo != {}
        invariant todo <= before.Keys
        invariant forall c :: c in free <==> c in before && (c in todo || c in children)
        invariant forall c :: c in free ==> free[c] == before[c]
      {
        var c :| c in todo;
        if c !in children {
          free := free - {c};
        }
        todo := todo - {c};
      }
    }

    method ResetPools(c: string)
      requires c in children
      modifies this`free
      ensures free == old(free)[c := (if c in old(free) then old(free)[c] else map[]) + children[c].pools]
    {
      ghost var before := free;
      if c !in free {
        free := free[c := map[]];
      }
      ghost var lists := free[c];
      var pools := children[c].pools;
      var names := pools.Keys;
      while names != {}
        invariant names <= pools.Keys
        invariant c in free && free == before[c := free[c]]
        invariant free[c] == lists + (map p | p in pools && p !in names :: pools[p])
      {
        var p :| p in names;
        free := free[c := free[c][p := pools[p]]];
        names := names - {p};
      }
      assert (map p | p in pools && p !in names :: pools[p]) == pools;
    }

    method RebuildFree()
      modifies this`free
      ensures free == Rebuilt(children, old(free))
    {
      ghost var before := free;
      PruneRemoved();
      var todo := children.Keys;
      while todo != {}
        invariant todo <= children.Keys
        invariant forall c :: c in free <==> c in children && (c in before || c !in todo)
        invariant forall c :: c in free ==>
          free[c] == if c in todo then before[c] else Rebuilt(children, before)[c]
      {
        var c :| c in todo;
        ResetPools(c);
        todo := todo - {c};
      }
      assert free == Rebuilt(children, before);
    }

    method SeenAddresses(pods: seq<Pod>) returns (podIps: seq<string>)
      ensures (set ip | ip in podIps) == Seen(children, set p | p in pods)
    {
      podIps := [];
      for i := 0 to |pods|
        invariant forall ip :: ip in podIps <==> exists j :: 0 <= j < i && pods[j].child in children && pods[j].ip == ip
      {
        if pods[i].child in children {
          podIps := podIps + [pods[i].ip];
        }
      }
    }

    method ExpirePending(podIps: seq<string>, now: nat)
      modifies this`pending
      ensures pending == Surviving(old(pending), (set ip | ip in podIps), now)
    {
      ghost var before := pending;
      var todo := pending.Keys;
      while todo != {}
        invariant todo <= before.Keys
        invariant forall ip :: ip in pending <==>
          ip in before && (ip in todo || (ip !in podIps && !Expired(before[ip], now)))
        invariant forall ip :: ip in pending ==> pending[ip] == before[ip]
      {
        var ip :| ip in todo;
        if ip in podIps || Expired(pending[ip], now) {
          pending := pending - {ip};
        }
        todo := todo - {ip};
      }
    }

    method SubtractTaken(podIps: seq<string>)
      modifies this`free
      ensures free == Subtracted(old(free), pending.Keys + (set ip | ip in podIps))
    {
      ghost var before := free;
      var taken := pending.Keys + (set ip | ip in podIps);
      var todo := free.Keys;
      while todo != {}
        invariant todo <= free.Keys && free.Keys == before.Keys
        invariant forall c :: c in free ==>
          free[c] == if c in todo then before[c] else Subtracted(before, taken)[c]
      {
        var c :| c in todo;
        SubtractFromChild(c, taken);
        todo := todo - {c};
      }
      assert free == Subtracted(before, taken);
    }

    method SubtractFromChild(c: string, taken: set<string>)
      requires c in free
      modifies this`free
      ensures free == old(free)[c := map p | p in old(free)[c] :: Without(old(free)[c][p], taken)]
    {
      var before := free[c];
      var lists, names := before, before.Keys;
      while names != {}
        invariant names <= before.Keys && lists.Keys == before.Keys
        invariant forall p :: p in before ==>
          lists[p] == if p in names then before[p] else Without(before[p], taken)
      {
        var p :| p in names;
        lists := lists[p := Without(lists[p], taken)];
        names := names - {p};
      }
      assert lists == map p | p in before :: Without(before[p], taken);
      free := free[c := lists];
    }

    function Remaining(stamp: Stamp, now: nat): int {
      if stamp.At? then (stamp.seconds + PENDING_TIMEOUT) * SECOND - now else 0
    }

    method NextDeadline(now: nat) returns (least: Option<int>)
      ensures least.None? <==> pending == map[]
      ensures least.Some? ==>
        && (exists ip :: ip in pending && least.value == Remaining(pending[ip], now))
        && forall ip :: ip in pending ==> least.value <= Remaining(pending[ip], now)
    {
      least := None;
      var todo := pending.Keys;
      while todo != {}
        invariant todo <= pending.Keys
        invariant least.None? <==> todo == pending.Keys
        invariant least.Some? ==>
          && (exists ip :: ip in pending && least.value == Remaining(pending[ip], now))
          && forall ip :: ip in pending && ip !in todo ==> least.value <= Remaining(pending[ip], now)
      {
        var ip :| ip in todo;
        var left := Remaining(pending[ip], now);
        if least.None? || left < least.value {
          least := Some(left);
        }
        todo := todo - {ip};
      }
    }

    /** One admission request, from the lookup of the child to the edited status. */
    method Admit(childName: string, poolName: string, now: nat) returns (admission: Admission)
      modifies this`free, this`pending
      ensures (admission, CurrentStatus()) == Allocate(children, old(CurrentStatus()), childName, poolName, now)
    {
      var found := false;
      var todo := children.Keys;
      while todo != {} && !found
        invariant todo <= children.Keys
        invariant found ==> exists k :: k in children && children[k].name == childName
        invariant !found ==> forall k :: k in children && k !in todo ==> children[k].name != childName
        decreases |todo|
      {
        var k :| k in todo;
        found := children[k].name == childName;
        todo := todo - {k};
      }
      if !found {
        return Denied(NoSuchChild);
      }
      if FreeOf(free, childName, poolName) == [] {
        return Denied(NoFreeAddress);
      }
      if childName !in gateways || gateways[childName] == "" {
        return Denied(GatewayNotReady);
      }
      var ip := free[childName][poolName][0];
      free := free[childName := free[childName][poolName := free[childName][poolName][1..]]];
      pending := pending[ip := At(now / SECOND)];
      admission := Granted(ip);
    }
  }
}

/** The validating webhook: which specs and which edits of a spec are accepted. */
module Admission {
  import opened Api
  import opened Cidr
  import opened Lists

  /** A pod as the webhook sees it: the annotations it looks at, if set. */
  datatype WorkerPod = WorkerPod(ipman: Option<string>, child: Option<string>, vxlanIP: Option<string>)

  function GetOr(o: Option<string>): string {
    if o.Some? then o.value else ""
  }

  // ---------------------------------------------------------------- uniqueness

  ghost predicate Offers(pools: map<string, seq<string>>, ip: string) {
    exists p :: p in pools && ip in pools[p]
  }

  ghost predicate OffersIn(child: Child, ip: string) {
    Offers(child.pools, ip)
  }

  /** No address twice in the pools of a child. */
  ghost predicate NoRepeats(pools: map<string, seq<string>>) {
    && (forall p :: p in pools ==> forall i, j :: 0 <= i < j < |pools[p]| ==> pools[p][i] != pools[p][j])
    && (forall p, q, ip :: p in pools && q in pools && ip in pools[p] && ip in pools[q] ==> p == q)
  }

  /** What uniqueness of a spec comes to, whatever order its maps are ranged over in. */
  ghost predicate Unique(children: Children) {
    && (forall k :: k in children ==> NoRepeats(children[k].pools))
    && (forall k, j, ip :: k in children && j in children && k != j && OffersIn(children[k], ip) && OffersIn(children[j], ip)
          ==> children[k].name != children[j].name)
    && (forall k, j :: k in children && j in children && k != j ==> children[k].ifId != children[j].ifId)
  }

  lemma OffersMore(pools: map<string, seq<string>>, p: string, pool: seq<string>, ip: string)
    requires p !in pools
    ensures Offers(pools[p := pool], ip) <==> Offers(pools, ip) || ip in pool
  {
    var more := pools[p := pool];
    assert forall q :: q in pools ==> q in more && more[q] == pools[q];
    assert p in more && more[p] == pool;
  }

  ghost predicate UsedBy(children: Children, ip: string, name: string) {
    exists k :: k in children && children[k].name == name && OffersIn(children[k], ip)
  }

  lemma UsedByMore(children: Children, k: string, child: Child, ip: string, name: string)
    requires k !in children
    ensures UsedBy(children[k := child], ip, name) <==>
      UsedBy(children, ip, name) || (child.name == name && OffersIn(child, ip))
  {
    var more := children[k := child];
    assert forall j :: j in children ==> j in more && more[j] == children[j];
    assert k in more && more[k] == child;
  }

  type Uses = map<string, seq<string>>   // address to the names of the children that list it

  predicate Used(ips: Uses, ip: string, name: string) {
    ip in ips && name in ips[ip]
  }

  method AddPool(ips: Uses, pool: seq<string>, name: string) returns (ok: bool, out: Uses)
    ensures ok <==> (forall i, j :: 0 <= i < j < |pool| ==> pool[i] != pool[j])
                    && forall ip :: ip in pool ==> !Used(ips, ip, name)
    ensures ok ==> forall ip, n :: Used(out, ip, n) <==> Used(ips, ip, n) || (n == name && ip in pool)
  {
    out := ips;
    for i := 0 to |pool|
      invariant forall ip, n :: Used(out, ip, n) <==> Used(ips, ip, n) || (n == name && ip in pool[..i])
      invariant forall j, l :: 0 <= j < l < i ==> pool[j] != pool[l]
      invariant forall ip :: ip in pool[..i] ==> !Used(ips, ip, name)
    {
      if Used(out, pool[i], name) {
        assert pool[i] in pool[..i] ==> exists j :: 0 <= j < i && pool[j] == pool[i];
        return false, out;
      }
      ghost var before := out;
      var names := if pool[i] in out then out[pool[i]] else [];
      out := out[pool[i] := names + [name]];
      assert pool[..i + 1] == pool[..i] + [pool[i]];
      assert forall ip, n :: Used(out, ip, n) <==> Used(before, ip, n) || (n == name && ip == pool[i]);
    }
    assert pool[..|pool|] == pool;
    ok := true;
  }

  method AddChild(ips: Uses, child: Child) returns (ok: bool, out: Uses)
    ensures ok <==> NoRepeats(child.pools) && forall ip :: OffersIn(child, ip) ==> !Used(ips, ip, child.name)
    ensures ok ==> forall ip, n :: Used(out, ip, n) <==> Used(ips, ip, n) || (n == child.name && OffersIn(child, ip))
  {
    out := ips;
    var pools, todo := child.pools, child.pools.Keys;
    ghost var done: map<string, seq<string>> := map[];
    while todo != {}
      invariant todo <= pools.Keys
      invariant done == map p | p in pools && p !in todo :: pools[p]
      invariant NoRepeats(done)
      invariant forall p, ip :: p in done && ip in done[p] ==> !Used(ips, ip, child.name)
      invariant forall ip, n :: Used(out, ip, n) <==>
        Used(ips, ip, n) || (n == child.name && Offers(done, ip))
    {
      var p :| p in todo;
      ghost var before, seen := out, done;
      ok, out := AddPool(out, pools[p], child.name);
      if !ok {
        assert forall ip :: ip in pools[p] ==> OffersIn(child, ip);
        return;
      }
      todo := todo - {p};
      done := done[p := pools[p]];
      forall ip ensures Offers(done, ip) <==> Offers(seen, ip) || ip in pools[p] {
        OffersMore(seen, p, pools[p], ip);
      }
    }
    assert done == pools;
    ok := true;
  }

  method ValidateUnique(children: Children) returns (ok: bool)
    ensures ok <==> Unique(children)
  {
    var ips: Uses := map[];
    var ifIds: set<int> := {};
    var todo := children.Keys;
    ghost var done: Children := map[];
    while todo != {}
      invariant todo <= children.Keys
      invariant done.Keys == children.Keys - todo && forall k :: k in done ==> done[k] == children[k]
      invariant Unique(done)
      invariant forall i :: i in ifIds <==> exists k :: k in done && done[k].ifId == i
      invariant forall ip, n :: Used(ips, ip, n) <==> UsedBy(done, ip, n)
    {
      var k :| k in todo;
      ghost var before, seen := ips, done;
      ok, ips := AddChild(ips, children[k]);
      if !ok {
        return;
      }
      if children[k].ifId in ifIds {
        return false;
      }
      ifIds := ifIds + {children[k].ifId};
      todo := todo - {k};
      done := done[k := children[k]];
      forall ip, n ensures Used(ips, ip, n) <==> UsedBy(done, ip, n) {
        UsedByMore(seen, k, children[k], ip, n);
      }
      assert forall i :: i in ifIds <==> exists j :: j in done && done[j].ifId == i by {
        assert forall j :: j in seen ==> done[j] == seen[j];
        assert done[k].ifId == children[k].ifId;
      }
    }
    assert done == children;
    ok := true;
  }

  // ---------------------------------------------------------------- updates

  type Parser = string -> Option<Net>   // net.ParseCIDR

  predicate EqualExceptChangeable(a: Child, b: Child) {
    a.(pools := map[], localIPs := []) == b.(pools := map[], localIPs := [])
  }

  /** A pod of connection `conn` that uses a child of the old or the new spec. */
  predicate Depends(pod: WorkerPod, conn: string, updated: Children, previous: Children) {
    pod.ipman == Some(conn) && pod.child.Some? && (pod.child.value in updated || pod.child.value in previous)
  }

  function AddedNames(updated: Children, previous: Children): set<string> {
    set k | k in updated && k !in previous :: updated[k].name
  }

  /** The children that are left to check once the added ones are taken out, by name. */
  function Kept(updated: Children, previous: Children): Children {
    map k | k in updated && updated[k].name !in AddedNames(updated, previous) :: updated[k]
  }

  ghost predicate DeletionOk(conn: string, updated: Children, previous: Children, pods: seq<WorkerPod>) {
    |updated| != |previous| ==>
      forall k, pod :: k in previous && k !in updated && pod in pods && Depends(pod, conn, updated, previous)
        ==> pod.child.value != previous[k].name
  }

  /** Addresses that leave a pool are not held by any of `dependents`. */
  ghost predicate PoolsOk(updated: Child, previous: Child, dependents: set<WorkerPod>) {
    forall p, ip, pod ::
      p in previous.pools && ip in previous.pools[p] && !(p in updated.pools && ip in updated.pools[p]) && pod in dependents
      ==> GetOr(pod.vxlanIP) != ip
  }

  predicate Covers(parse: Parser, cidr: string, address: string)
    requires parse(cidr).Some? && parse(address).Some?
  {
    parse(cidr).value.Contains(parse(address).value) || cidr == address
  }

  /** Local networks that are dropped parse, and cover no annotated pod. */
  ghost predicate LocalsOk(parse: Parser, updated: Child, previous: Child, pods: seq<WorkerPod>) {
    forall cidr :: cidr in previous.localIPs && cidr !in updated.localIPs ==>
      && parse(cidr).Some?
      && forall pod :: pod in pods && pod.vxlanIP.Some? ==>
           parse(pod.vxlanIP.value).Some? && !Covers(parse, cidr, pod.vxlanIP.value)
  }

  ghost predicate Accepted(parse: Parser, conn: string, updated: Children, previous: Children, pods: seq<WorkerPod>) {
    && DeletionOk(conn, updated, previous, pods)
    && (forall k :: k in Kept(updated, previous) ==> k in previous && ChildOk(parse, conn, updated, previous, pods, k))
    && Unique(Kept(updated, previous))
  }

  ghost predicate ChildOk(parse: Parser, conn: string, updated: Children, previous: Children, pods: seq<WorkerPod>,
                          k: string)
    requires k in updated && k in previous
  {
    && EqualExceptChangeable(updated[k], previous[k])
    && PoolsOk(updated[k], previous[k], set pod | pod in pods && Depends(pod, conn, updated, previous))
    && LocalsOk(parse, updated[k], previous[k], pods)
  }

  type Dependents = map<string, seq<WorkerPod>>   // by child

  ghost predicate Sorted(dependents: Dependents, conn: string, updated: Children, previous: Children,
                         pods: seq<WorkerPod>) {
    forall c, pod :: (c in dependents && pod in dependents[c]) <==>
      pod in pods && Depends(pod, conn, updated, previous) && pod.child.value == c
  }

  predicate InUse(dependents: Dependents, c: string) {
    c in dependents && dependents[c] != []
  }

  lemma InUseIff(dependents: Dependents, conn: string, updated: Children, previous: Children, pods: seq<WorkerPod>,
                 c: string)
    requires Sorted(dependents, conn, updated, previous, pods)
    ensures InUse(dependents, c) <==>
      exists pod :: pod in pods && Depends(pod, conn, updated, previous) && pod.child.value == c
  {
    if InUse(dependents, c) {
      var pod := dependents[c][0];
      assert pod in dependents[c];
      assert pod in pods && Depends(pod, conn, updated, previous) && pod.child.value == c;
    }
  }

  method CollectDependents(conn: string, updated: Children, previous: Children, pods: seq<WorkerPod>)
      returns (dependents: Dependents)
    ensures Sorted(dependents, conn, updated, previous, pods)
  {
    dependents := map[];
    for i := 0 to |pods|
      invariant Sorted(dependents, conn, updated, previous, pods[..i])
    {
      assert pods[..i + 1] == pods[..i] + [pods[i]];
      if pods[i].ipman != Some(conn) {
        continue;
      }
      if pods[i].child.Some? && (pods[i].child.value in updated || pods[i].child.value in previous) {
        var c := pods[i].child.value;
        dependents := dependents[c := (if c in dependents then dependents[c] else []) + [pods[i]]];
      }
    }
    assert pods[..|pods|] == pods;
  }

  method CheckDeletion(conn: string, updated: Children, previous: Children, pods: seq<WorkerPod>,
                       dependents: Dependents)
      returns (ok: bool)
    requires Sorted(dependents, conn, updated, previous, pods)
    ensures ok <==> DeletionOk(conn, updated, previous, pods)
  {
    if |updated| == |previous| {
      return true;
    }
    forall c ensures InUse(dependents, c) <==>
      exists pod :: pod in pods && Depends(pod, conn, updated, previous) && pod.child.value == c
    {
      InUseIff(dependents, conn, updated, previous, pods, c);
    }
    var todo := previous.Keys;
    while todo != {}
      invariant todo <= previous.Keys
      invariant forall k :: k in previous && k !in todo && k !in updated ==> !InUse(dependents, previous[k].name)
    {
      var k :| k in todo;
      if k !in updated && InUse(dependents, previous[k].name) {
        return false;
      }
      todo := todo - {k};
    }
    ok := true;
  }

  method HoldsAny(dependents: Dependents, deleted: seq<string>) returns (held: bool)
    ensures held <==> exists c, pod :: c in dependents && pod in dependents[c] && GetOr(pod.vxlanIP) in deleted
  {
    var todo := dependents.Keys;
    while todo != {}
      invariant todo <= dependents.Keys
      invariant forall c, pod :: c in dependents && c !in todo && pod in dependents[c] ==> GetOr(pod.vxlanIP) !in deleted
    {
      var c :| c in todo;
      for i := 0 to |dependents[c]|
        invariant forall j :: 0 <= j < i ==> GetOr(dependents[c][j].vxlanIP) !in deleted
      {
        if GetOr(dependents[c][i].vxlanIP) in deleted {
          assert dependents[c][i] in dependents[c];
          return true;
        }
      }
      todo := todo - {c};
    }
    held := false;
  }

  method DeletedAddresses(updated: Child, previous: Child) returns (deleted: seq<string>)
    ensures forall ip :: ip in deleted <==>
      exists p :: p in previous.pools && ip in previous.pools[p] && !(p in updated.pools && ip in updated.pools[p])
  {
    deleted := [];
    var todo := previous.pools.Keys;
    while todo != {}
      invariant todo <= previous.pools.Keys
      invariant forall ip :: ip in deleted <==>
        exists p :: p in previous.pools && p !in todo && ip in previous.pools[p]
          && !(p in updated.pools && ip in updated.pools[p])
    {
      var p :| p in todo;
      var kept := if p in updated.pools then updated.pools[p] else [];
      var gone := Without(previous.pools[p], set ip | ip in kept);
      ghost var before := deleted;
      deleted := deleted + gone;
      todo := todo - {p};
      assert forall ip :: ip in deleted <==> ip in before || ip in gone;
    }
  }

  method CheckLocals(parse: Parser, updated: Child, previous: Child, pods: seq<WorkerPod>) returns (ok: bool)
    ensures ok <==> LocalsOk(parse, updated, previous, pods)
  {
    var olds := previous.localIPs;
    for i := 0 to |olds|
      invariant LocalsOk(parse, updated, previous.(localIPs := olds[..i]), pods)
    {
      assert olds[..i + 1] == olds[..i] + [olds[i]];
      if olds[i] !in updated.localIPs {
        if parse(olds[i]).None? {
          return false;
        }
        for j := 0 to |pods|
          invariant forall l :: 0 <= l < j && pods[l].vxlanIP.Some? ==>
            parse(pods[l].vxlanIP.value).Some? && !Covers(parse, olds[i], pods[l].vxlanIP.value)
        {
          var address := pods[j].vxlanIP;
          if address.Some? && (parse(address.value).None? || Covers(parse, olds[i], address.value)) {
            assert pods[j] in pods;
            return false;
          }
        }
      }
    }
    assert olds[..|olds|] == olds;
    ok := true;
  }

  method CheckChild(parse: Parser, conn: string, updated: Children, previous: Children, pods: seq<WorkerPod>,
                    dependents: Dependents, k: string) returns (ok: bool)
    requires k in updated && k in previous
    requires Sorted(dependents, conn, updated, previous, pods)
    ensures ok <==> ChildOk(parse, conn, updated, previous, pods, k)
  {
    if !EqualExceptChangeable(updated[k], previous[k]) {
      return false;
    }
    ghost var all := set pod | pod in pods && Depends(pod, conn, updated, previous);
    assert forall pod :: pod in all ==> pod in dependents[pod.child.value];
    if updated[k].pools != previous[k].pools {
      var deleted := DeletedAddresses(updated[k], previous[k]);
      var held := HoldsAny(dependents, deleted);
      if held {
        return false;
      }
    }
    if updated[k].localIPs != previous[k].localIPs {
      ok := CheckLocals(parse, updated[k], previous[k], pods);
    } else {
      ok := true;
    }
  }

  /** The verdict on an update, in the order the webhook checks things. */
  method ValidateUpdate(parse: Parser, conn: string, updated: Children, previous: Children, pods: seq<WorkerPod>)
      returns (ok: bool)
    ensures ok <==> Accepted(parse, conn, updated, previous, pods)
  {
    var dependents := CollectDependents(conn, updated, previous, pods);
    ok := CheckDeletion(conn, updated, previous, pods, dependents);
    if !ok {
      return;
    }
    var kept := Kept(updated, previous);
    var todo := kept.Keys;
    while todo != {}
      invariant todo <= kept.Keys
      invariant forall k :: k in kept && k !in todo ==> ChildOk(parse, conn, updated, previous, pods, k)
    {
      var k :| k in todo;
      ok := CheckChild(parse, conn, updated, previous, pods, dependents, k);
      if !ok {
        return;
      }
      todo := todo - {k};
    }
    ok := ValidateUnique(kept);
  }

  // ---------------------------------------------------------------- what acceptance guarantees

  predicate KeysAreNames(children: Children) {
    forall k :: k in children ==> children[k].name == k
  }

  lemma KeptPools(updated: Child, previous: Child, dependents: set<WorkerPod>, p: string, pod: WorkerPod)
    requires PoolsOk(updated, previous, dependents) && pod in dependents && pod.vxlanIP.Some?
    requires p in previous.pools && pod.vxlanIP.value in previous.pools[p]
    ensures p in updated.pools && pod.vxlanIP.value in updated.pools[p]
  {}

  /** An accepted update takes no address held by a dependent pod out of any pool of a child that
      stays. */
  lemma AcceptedKeepsHeldAddresses(parse: Parser, conn: string, updated: Children, previous: Children,
                                   pods: seq<WorkerPod>,
                                   k: string, p: string, pod: WorkerPod)
    requires KeysAreNames(updated) && KeysAreNames(previous) && Accepted(parse, conn, updated, previous, pods)
    requires k in updated && k in previous && pod in pods && Depends(pod, conn, updated, previous) && pod.vxlanIP.Some?
    requires p in previous[k].pools && pod.vxlanIP.value in previous[k].pools[p]
    ensures p in updated[k].pools && pod.vxlanIP.value in updated[k].pools[p]
  {
    assert k in Kept(updated, previous);
    assert ChildOk(parse, conn, updated, previous, pods, k);
    KeptPools(updated[k], previous[k], (set q | q in pods && Depends(q, conn, updated, previous)), p, pod);
  }

  lemma KeptNetworks(parse: Parser, updated: Child, previous: Child, pods: seq<WorkerPod>, cidr: string, pod: WorkerPod)
    requires LocalsOk(parse, updated, previous, pods) && cidr in previous.localIPs && cidr !in updated.localIPs
    requires pod in pods && pod.vxlanIP.Some?
    ensures parse(cidr).Some? && parse(pod.vxlanIP.value).Some?
    ensures Outside(parse(pod.vxlanIP.value).value, parse(cidr).value)
  {
    assert !Covers(parse, cidr, pod.vxlanIP.value);
    ContainsIsInterval(parse(cidr).value, parse(pod.vxlanIP.value).value);
  }

  /** A local network that an accepted update drops from a child that stays starts above or ends
      below every annotated pod's address. */
  lemma AcceptedKeepsLocalNetworks(parse: Parser, conn: string, updated: Children, previous: Children,
                                   pods: seq<WorkerPod>,
                                   k: string, cidr: string, pod: WorkerPod)
    requires KeysAreNames(updated) && KeysAreNames(previous) && Accepted(parse, conn, updated, previous, pods)
    requires k in updated && k in previous && cidr in previous[k].localIPs && cidr !in updated[k].localIPs
    requires pod in pods && pod.vxlanIP.Some?
    ensures parse(cidr).Some? && parse(pod.vxlanIP.value).Some?
    ensures Outside(parse(pod.vxlanIP.value).value, parse(cidr).value)
  {
    assert k in Kept(updated, previous);
    assert ChildOk(parse, conn, updated, previous, pods, k);
    KeptNetworks(parse, updated[k], previous[k], pods, cidr, pod);
  }

  /** When the number of children changes, an accepted update deletes no child in use. */
  lemma AcceptedDeletesUnused(parse: Parser, conn: string, updated: Children, previous: Children, pods: seq<WorkerPod>,
                              k: string, pod: WorkerPod)
    requires KeysAreNames(previous) && Accepted(parse, conn, updated, previous, pods)
    requires |updated| != |previous| && k in previous && k !in updated
    requires pod in pods && pod.ipman == Some(conn) && pod.child.Some?
    ensures pod.child.value != k
  {}

  /** No child that is dropped is named by a pod of the connection. */
  ghost predicate DropsNoneInUse(conn: string, updated: Children, previous: Children, pods: seq<WorkerPod>) {
    forall k, pod: WorkerPod :: k in previous && k !in updated && pod in pods && pod.ipman == Some(conn) && pod.child.Some? ==>
      pod.child.value != k
  }

  /** A pod without an address stands in the way of nothing but the deletion check. */
  lemma AddresslessPodAccepted(parse: Parser, conn: string, updated: Children, previous: Children, pod: WorkerPod)
    requires Accepted(parse, conn, updated, previous, []) && |updated| == |previous| && pod.vxlanIP.None?
    requires forall k, p :: k in previous && p in previous[k].pools ==> "" !in previous[k].pools[p]
    ensures Accepted(parse, conn, updated, previous, [pod])
  {}

  /** For an edit that is fine as long as there are no pods: whatever the pods, accepting it drops no
      child in use, if and only if it changes the number of children or drops none. */
  lemma AcceptedDropsUnusedIff(parse: Parser, conn: string, updated: Children, previous: Children)
    requires KeysAreNames(updated) && KeysAreNames(previous) && Accepted(parse, conn, updated, previous, [])
    requires forall k, p :: k in previous && p in previous[k].pools ==> "" !in previous[k].pools[p]
    ensures (forall pods :: Accepted(parse, conn, updated, previous, pods) ==> DropsNoneInUse(conn, updated, previous, pods))
      <==> |updated| != |previous| || previous.Keys <= updated.Keys
  {
    if |updated| != |previous| || previous.Keys <= updated.Keys {
      forall pods | Accepted(parse, conn, updated, previous, pods)
        ensures DropsNoneInUse(conn, updated, previous, pods)
      {
        forall k, pod: WorkerPod | k in previous && k !in updated && pod in pods && pod.ipman == Some(conn) && pod.child.Some?
          ensures pod.child.value != k
        {
          AcceptedDeletesUnused(parse, conn, updated, previous, pods, k, pod);
        }
      }
    } else {
      var k :| k in previous && k !in updated;
      var pod := WorkerPod(Some(conn), Some(k), None);
      AddresslessPodAccepted(parse, conn, updated, previous, pod);
      assert pod in [pod] && !DropsNoneInUse(conn, updated, previous, [pod]);
    }
  }

  /** Replacing one child by another leaves the number as it is: accepted, whoever uses the child. */
  lemma SwapAlwaysAccepted(parse: Parser, conn: string, previous: Children, k: string, other: Child,
                           pods: seq<WorkerPod>)
    requires KeysAreNames(previous) && Unique(previous) && k in previous && other.name !in previous
    ensures Accepted(parse, conn, (previous - {k})[other.name := other], previous, pods)
  {
    var rest := previous - {k};
    var updated := rest[other.name := other];
    assert |updated.Keys| == |previous.Keys| by {
      assert updated.Keys == previous.Keys - {k} + {other.name};
    }
    KeptOfAdded(rest, previous, other);
    assert DeletionOk(conn, updated, previous, pods);
    assert forall j :: j in rest ==> ChildOk(parse, conn, updated, previous, pods, j);
    assert Unique(rest);
  }

  lemma KeptOfAdded(rest: Children, previous: Children, other: Child)
    requires KeysAreNames(previous) && other.name !in previous
    requires forall k :: k in rest ==> k in previous && rest[k] == previous[k]
    ensures Kept(rest[other.name := other], previous) == rest
  {}

  /** An added child is taken out before uniqueness is checked: accepted, whatever it repeats. */
  lemma AddedAlwaysAccepted(parse: Parser, conn: string, previous: Children, other: Child, pods: seq<WorkerPod>)
    requires KeysAreNames(previous) && Unique(previous) && other.name !in previous
    ensures Accepted(parse, conn, previous[other.name := other], previous, pods)
  {
    var updated := previous[other.name := other];
    KeptOfAdded(previous, previous, other);
    assert DeletionOk(conn, updated, previous, pods);
    assert forall j :: j in previous ==> ChildOk(parse, conn, updated, previous, pods, j);
  }

  /** So an accepted update leaves a unique spec exactly when what it adds is unique with the rest. */
  lemma AcceptedUniqueIff(parse: Parser, conn: string, updated: Children, previous: Children, pods: seq<WorkerPod>)
    requires KeysAreNames(updated) && KeysAreNames(previous) && Accepted(parse, conn, updated, previous, pods)
    ensures Unique(updated) <==>
      && (forall k :: k in updated && k !in previous ==> NoRepeats(updated[k].pools))
      && (forall k, j :: k in updated && k !in previous && j in updated && j != k ==> updated[k].ifId != updated[j].ifId)
  {
    var kept := Kept(updated, previous);
    assert forall k :: k in updated ==> (k in kept <==> k in previous) && (k in kept ==> kept[k] == updated[k]);
    assert Unique(kept);
  }

  // ---------------------------------------------------------------- the verdicts, told without their parts

  /** A spec is accepted exactly when no two places in the pools of children of one name hold the same
      address and no two children have the same interface id. */
  lemma UniqueIs(children: Children)
    ensures Unique(children) <==>
      && (forall k, j, p, q, i: nat, l: nat ::
            k in children && j in children && children[k].name == children[j].name
            && p in children[k].pools && q in children[j].pools
            && i < |children[k].pools[p]| && l < |children[j].pools[q]| && (k != j || p != q || i != l)
            ==> children[k].pools[p][i] != children[j].pools[q][l])
      && (forall k, j :: k in children && j in children && k != j ==> children[k].ifId != children[j].ifId)
  {
    if Unique(children) {
      forall k, j, p, q, i: nat, l: nat | k in children && j in children && children[k].name == children[j].name
        && p in children[k].pools && q in children[j].pools
        && i < |children[k].pools[p]| && l < |children[j].pools[q]| && (k != j || p != q || i != l)
        ensures children[k].pools[p][i] != children[j].pools[q][l]
      {
        PlacesDiffer(children, k, j, p, q, i, l);
      }
    }
  }

  lemma PlacesDiffer(children: Children, k: string, j: string, p: string, q: string, i: nat, l: nat)
    requires Unique(children) && k in children && j in children && children[k].name == children[j].name
    requires p in children[k].pools && q in children[j].pools
    requires i < |children[k].pools[p]| && l < |children[j].pools[q]| && (k != j || p != q || i != l)
    ensures children[k].pools[p][i] != children[j].pools[q][l]
  {
    var ip := children[k].pools[p][i];
    if ip == children[j].pools[q][l] {
      assert ip in children[k].pools[p] && ip in children[j].pools[q];
      assert OffersIn(children[k], ip) && OffersIn(children[j], ip);
      assert false;
    }
  }

  lemma KeptIs(updated: Children, previous: Children)
    requires KeysAreNames(updated) && KeysAreNames(previous)
    ensures forall k :: k in Kept(updated, previous) <==> k in updated && k in previous
    ensures forall k :: k in Kept(updated, previous) ==> Kept(updated, previous)[k] == updated[k]
  {}

  /** A child that stays keeps its remote networks, interface id, addresses and everything else but its
      pools and local networks. */
  ghost predicate FixedStay(updated: Children, previous: Children) {
    forall k :: k in updated && k in previous ==>
      && updated[k].name == previous[k].name && updated[k].remoteIPs == previous[k].remoteIPs
      && updated[k].ifId == previous[k].ifId && updated[k].xfrmIP == previous[k].xfrmIP
      && updated[k].vxlanIP == previous[k].vxlanIP && updated[k].extra == previous[k].extra
  }

  /** If the number of children changes, no pod of the connection names a child that is dropped. */
  ghost predicate DroppedUnused(conn: string, updated: Children, previous: Children, pods: seq<WorkerPod>) {
    |updated| != |previous| ==> forall k, pod: WorkerPod :: k in previous && k !in updated && pod in pods ==>
      !(pod.ipman == Some(conn) && pod.child == Some(k))
  }

  /** No address that leaves a pool of a child that stays is held by a pod of the connection that names
      an old or a new child; one without an address counts as holding "". */
  ghost predicate HeldStay(conn: string, updated: Children, previous: Children, pods: seq<WorkerPod>) {
    forall k, p, ip, pod: WorkerPod ::
      && k in updated && k in previous && p in previous[k].pools && ip in previous[k].pools[p]
      && !(p in updated[k].pools && ip in updated[k].pools[p])
      && pod in pods && pod.ipman == Some(conn) && pod.child.Some?
      && (pod.child.value in updated || pod.child.value in previous)
      ==> ip != if pod.vxlanIP.Some? then pod.vxlanIP.value else ""
  }

  /** The address is written differently from the network, parses, and lies outside of it. */
  predicate LiesApart(parse: Parser, cidr: string, address: string)
    requires parse(cidr).Some?
  {
    && address != cidr && parse(address).Some?
    && var net, ip := parse(cidr).value, parse(address).value;
       ip.width != net.width || ip.address < net.First() || net.Last() < ip.address
  }

  /** Every local network that leaves a child that stays parses, and every annotated pod's address lies
      apart from it. */
  ghost predicate LocalsApart(parse: Parser, updated: Children, previous: Children, pods: seq<WorkerPod>) {
    forall k, cidr :: k in updated && k in previous && cidr in previous[k].localIPs && cidr !in updated[k].localIPs ==>
      && parse(cidr).Some?
      && forall pod: WorkerPod :: pod in pods && pod.vxlanIP.Some? ==> LiesApart(parse, cidr, pod.vxlanIP.value)
  }

  /** The children that stay repeat no address, each by itself, and no interface id. */
  ghost predicate StayUnique(updated: Children, previous: Children) {
    && (forall k, p, q, i: nat, l: nat :: k in updated && k in previous && p in updated[k].pools && q in updated[k].pools
          && i < |updated[k].pools[p]| && l < |updated[k].pools[q]| && (p != q || i != l)
          ==> updated[k].pools[p][i] != updated[k].pools[q][l])
    && (forall k, j :: k in updated && k in previous && j in updated && j in previous && k != j ==>
          updated[k].ifId != updated[j].ifId)
  }

  lemma FixedIs(a: Child, b: Child)
    ensures EqualExceptChangeable(a, b) <==>
      && a.name == b.name && a.remoteIPs == b.remoteIPs && a.ifId == b.ifId
      && a.xfrmIP == b.xfrmIP && a.vxlanIP == b.vxlanIP && a.extra == b.extra
  {}

  lemma DeletionIs(conn: string, updated: Children, previous: Children, pods: seq<WorkerPod>)
    requires KeysAreNames(previous)
    ensures DeletionOk(conn, updated, previous, pods) <==> DroppedUnused(conn, updated, previous, pods)
  {}

  lemma CoversIs(parse: Parser, cidr: string, address: string)
    requires parse(cidr).Some?
    ensures LiesApart(parse, cidr, address) <==> parse(address).Some? && !Covers(parse, cidr, address)
  {
    if parse(address).Some? {
      ContainsIsInterval(parse(cidr).value, parse(address).value);
    }
  }

  ghost predicate PoolsStay(conn: string, updated: Children, previous: Children, pods: seq<WorkerPod>) {
    forall k :: k in updated && k in previous ==>
      PoolsOk(updated[k], previous[k], set pod | pod in pods && Depends(pod, conn, updated, previous))
  }

  lemma PoolsAre(conn: string, updated: Children, previous: Children, pods: seq<WorkerPod>)
    ensures PoolsStay(conn, updated, previous, pods) <==> HeldStay(conn, updated, previous, pods)
  {
    var dependents := set pod | pod in pods && Depends(pod, conn, updated, previous);
    if HeldStay(conn, updated, previous, pods) {
      forall k | k in updated && k in previous ensures PoolsOk(updated[k], previous[k], dependents) {}
    } else if PoolsStay(conn, updated, previous, pods) {
      forall k, p, ip, pod: WorkerPod | k in updated && k in previous && p in previous[k].pools && ip in previous[k].pools[p]
        && !(p in updated[k].pools && ip in updated[k].pools[p])
        && pod in pods && pod.ipman == Some(conn) && pod.child.Some?
        && (pod.child.value in updated || pod.child.value in previous)
        ensures ip != if pod.vxlanIP.Some? then pod.vxlanIP.value else ""
      {
        assert pod in dependents && PoolsOk(updated[k], previous[k], dependents);
      }
    }
  }

  ghost predicate LocalsStay(parse: Parser, updated: Children, previous: Children, pods: seq<WorkerPod>) {
    forall k :: k in updated && k in previous ==> LocalsOk(parse, updated[k], previous[k], pods)
  }

  lemma LocalsAre(parse: Parser, updated: Children, previous: Children, pods: seq<WorkerPod>)
    ensures LocalsStay(parse, updated, previous, pods) <==> LocalsApart(parse, updated, previous, pods)
  {
    if LocalsApart(parse, updated, previous, pods) {
      forall k | k in updated && k in previous ensures LocalsOk(parse, updated[k], previous[k], pods) {
        forall cidr | cidr in previous[k].localIPs && cidr !in updated[k].localIPs
          ensures parse(cidr).Some?
          ensures forall pod: WorkerPod :: pod in pods && pod.vxlanIP.Some? ==>
            parse(pod.vxlanIP.value).Some? && !Covers(parse, cidr, pod.vxlanIP.value)
        {
          forall address | LiesApart(parse, cidr, address)
            ensures parse(address).Some? && !Covers(parse, cidr, address)
          {
            CoversIs(parse, cidr, address);
          }
        }
      }
    }
    if LocalsStay(parse, updated, previous, pods) {
      forall k, cidr | k in updated && k in previous && cidr in previous[k].localIPs && cidr !in updated[k].localIPs
        ensures parse(cidr).Some?
        ensures forall pod: WorkerPod :: pod in pods && pod.vxlanIP.Some? ==> LiesApart(parse, cidr, pod.vxlanIP.value)
      {
        assert LocalsOk(parse, updated[k], previous[k], pods);
        forall pod: WorkerPod | pod in pods && pod.vxlanIP.Some? ensures LiesApart(parse, cidr, pod.vxlanIP.value) {
          CoversIs(parse, cidr, pod.vxlanIP.value);
        }
      }
    }
  }

  lemma StayUniqueIs(updated: Children, previous: Children)
    requires KeysAreNames(updated) && KeysAreNames(previous)
    ensures Unique(Kept(updated, previous)) <==> StayUnique(updated, previous)
  {
    KeptIs(updated, previous);
    UniqueIs(Kept(updated, previous));
  }

  lemma AcceptedParts(parse: Parser, conn: string, updated: Children, previous: Children, pods: seq<WorkerPod>)
    requires KeysAreNames(updated) && KeysAreNames(previous)
    ensures Accepted(parse, conn, updated, previous, pods) <==>
      && DeletionOk(conn, updated, previous, pods) && PoolsStay(conn, updated, previous, pods)
      && (forall k :: k in updated && k in previous ==> EqualExceptChangeable(updated[k], previous[k]))
      && LocalsStay(parse, updated, previous, pods) && Unique(Kept(updated, previous))
  {
    KeptIs(updated, previous);
  }

  /** The whole verdict on an edit of children that are listed under their names. */
  lemma VerdictIs(parse: Parser, conn: string, updated: Children, previous: Children, pods: seq<WorkerPod>)
    requires KeysAreNames(updated) && KeysAreNames(previous)
    ensures Accepted(parse, conn, updated, previous, pods) <==>
      && DroppedUnused(conn, updated, previous, pods) && FixedStay(updated, previous)
      && HeldStay(conn, updated, previous, pods) && LocalsApart(parse, updated, previous, pods)
      && StayUnique(updated, previous)
  {
    AcceptedParts(parse, conn, updated, previous, pods);
    DeletionIs(conn, updated, previous, pods);
    PoolsAre(conn, updated, previous, pods);
    LocalsAre(parse, updated, previous, pods);
    StayUniqueIs(updated, previous);
    FixedStayIs(updated, previous);
  }

  lemma FixedStayIs(updated: Children, previous: Children)
    ensures FixedStay(updated, previous) <==>
      forall k :: k in updated && k in previous ==> EqualExceptChangeable(updated[k], previous[k])
  {
    forall k | k in updated && k in previous
      ensures EqualExceptChangeable(updated[k], previous[k]) <==>
        && updated[k].name == previous[k].name && updated[k].remoteIPs == previous[k].remoteIPs
        && updated[k].ifId == previous[k].ifId && updated[k].xfrmIP == previous[k].xfrmIP
        && updated[k].vxlanIP == previous[k].vxlanIP && updated[k].extra == previous[k].extra
    {
      FixedIs(updated[k], previous[k]);
    }
  }

  /** An accepted edit changes nothing of a child that stays but its pools and local networks. */
  lemma AcceptedKeepsFixed(parse: Parser, conn: string, updated: Children, previous: Children, pods: seq<WorkerPod>,
                           k: string)
    requires KeysAreNames(updated) && KeysAreNames(previous) && Accepted(parse, conn, updated, previous, pods)
    requires k in updated && k in previous
    ensures updated[k].name == previous[k].name && updated[k].remoteIPs == previous[k].remoteIPs
    ensures updated[k].ifId == previous[k].ifId && updated[k].xfrmIP == previous[k].xfrmIP
    ensures updated[k].vxlanIP == previous[k].vxlanIP && updated[k].extra == previous[k].extra
  {
    VerdictIs(parse, conn, updated, previous, pods);
  }

  /** An edit of the same children that changes only pools and local networks is accepted, as long as no
      held address and no network that covers a pod goes and no address is repeated. */
  lemma HarmlessAccepted(parse: Parser, conn: string, updated: Children, previous: Children, pods: seq<WorkerPod>)
    requires KeysAreNames(updated) && KeysAreNames(previous) && updated.Keys == previous.Keys
    requires forall k :: k in updated ==>
      && updated[k].remoteIPs == previous[k].remoteIPs && updated[k].ifId == previous[k].ifId
      && updated[k].xfrmIP == previous[k].xfrmIP && updated[k].vxlanIP == previous[k].vxlanIP
      && updated[k].extra == previous[k].extra
    requires HeldStay(conn, updated, previous, pods) && LocalsApart(parse, updated, previous, pods)
    requires StayUnique(updated, previous)
    ensures Accepted(parse, conn, updated, previous, pods)
  {
    VerdictIs(parse, conn, updated, previous, pods);
    assert |updated.Keys| == |previous.Keys|;
  }
}

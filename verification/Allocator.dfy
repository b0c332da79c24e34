/** The free-list bookkeeping in the status of one IPSecConnection: what the reconciler
    recomputes and what the mutating webhook takes out of it. */
module Allocator {
  import opened Api
  import opened Lists

  const SECOND: nat := 1_000_000_000   // the clock counts nanoseconds
  const PENDING_TIMEOUT: nat := 35     // seconds

  /** A reservation stamp: the clock truncated to seconds, or text that does not parse. */
  datatype Stamp = At(seconds: nat) | Malformed

  type FreeIPs = map<string, map<string, seq<string>>>

  datatype Status = Status(free: FreeIPs, pending: map<string, Stamp>, gateways: map<string, string>)

  /** The two annotations of a listed pod that the reconciler reads; "" when missing. */
  datatype Pod = Pod(child: string, ip: string)

  datatype Reason = NoSuchChild | NoFreeAddress | GatewayNotReady
  datatype Admission = Granted(ip: string) | Denied(reason: Reason)

  // ---------------------------------------------------------------- total lookups

  function Pools(children: Children, c: string): map<string, seq<string>> {
    if c in children then children[c].pools else map[]
  }

  function PoolOf(children: Children, c: string, p: string): seq<string> {
    var pools := Pools(children, c);
    if p in pools then pools[p] else []
  }

  function FreeOf(free: FreeIPs, c: string, p: string): seq<string> {
    if c in free && p in free[c] then free[c][p] else []
  }

  // ---------------------------------------------------------------- the reconciler

  /** Free lists before subtraction: removed children go, listed pools restart from the spec,
      and a pool the spec no longer has keeps the list it had. */
  function Rebuilt(children: Children, free: FreeIPs): FreeIPs {
    map c | c in children :: (if c in free then free[c] else map[]) + children[c].pools
  }

  function Subtracted(free: FreeIPs, taken: set<string>): FreeIPs {
    map c | c in free :: map p | p in free[c] :: Without(free[c][p], taken)
  }

  /** The addresses of the listed pods that name one of the connection's children. */
  function Seen(children: Children, pods: set<Pod>): set<string> {
    set p | p in pods && p.child in children :: p.ip
  }

  predicate Expired(stamp: Stamp, now: nat) {
    stamp.Malformed? || now > (stamp.seconds + PENDING_TIMEOUT) * SECOND
  }

  function Surviving(pending: map<string, Stamp>, seen: set<string>, now: nat): map<string, Stamp> {
    map ip | ip in pending && ip !in seen && !Expired(pending[ip], now) :: pending[ip]
  }

  function Refreshed(children: Children, st: Status, pods: set<Pod>, now: nat): Status {
    var seen := Seen(children, pods);
    var pending := Surviving(st.pending, seen, now);
    Status(Subtracted(Rebuilt(children, st.free), pending.Keys + seen), pending, st.gateways)
  }

  // ---------------------------------------------------------------- the mutating webhook

  function Allocate(children: Children, st: Status, child: string, pool: string, now: nat): (Admission, Status) {
    if !exists k :: k in children && children[k].name == child then (Denied(NoSuchChild), st)
    else if FreeOf(st.free, child, pool) == [] then (Denied(NoFreeAddress), st)
    else if child !in st.gateways || st.gateways[child] == "" then (Denied(GatewayNotReady), st)
    else
      var list := st.free[child][pool];
      (Granted(list[0]), st.(free := st.free[child := st.free[child][pool := list[1..]]],
                             pending := st.pending[list[0] := At(now / SECOND)]))
  }

  // ---------------------------------------------------------------- facts about the two

  /** What a list holds after a refresh. */
  lemma FreeOfRefreshed(children: Children, st: Status, pods: set<Pod>, now: nat, c: string, p: string)
    ensures var r := Refreshed(children, st, pods, now);
      FreeOf(r.free, c, p) ==
        if c !in children then []
        else Without(if p in children[c].pools then children[c].pools[p] else FreeOf(st.free, c, p),
                     r.pending.Keys + Seen(children, pods))
  {}

  /** What a list holds after a granted request. */
  lemma FreeOfAllocated(children: Children, st: Status, child: string, pool: string, now: nat, c: string, p: string)
    requires Allocate(children, st, child, pool, now).0.Granted?
    ensures var (a, st') := Allocate(children, st, child, pool, now);
      && FreeOf(st.free, child, pool) != []
      && a.ip == FreeOf(st.free, child, pool)[0]
      && FreeOf(st'.free, c, p) ==
           (if c == child && p == pool then FreeOf(st.free, c, p)[1..] else FreeOf(st.free, c, p))
  {}

  /** A reservation outlives every refresh within 34 seconds of the request that does not see
      its pod, and does not outlive one later than 35 seconds, although its stamp drops up to a
      second. */
  lemma ReservationBound(children: Children, st: Status, pods: set<Pod>, now: nat, ip: string, stamped: nat)
    requires ip in st.pending && st.pending[ip] == At(stamped / SECOND)
    ensures var r := Refreshed(children, st, pods, now);
      && (ip in r.pending ==> r.pending[ip] == st.pending[ip])
      && (now <= stamped + 34 * SECOND ==> (ip in r.pending <==> ip !in Seen(children, pods)))
      && (now > stamped + 35 * SECOND ==> ip !in r.pending)
  {}

  /** After a refresh every address of a pool is in exactly one place: its free list, the
      reservations, or a listed pod. */
  lemma RefreshPartitions(children: Children, st: Status, pods: set<Pod>, now: nat, c: string, p: string, ip: string)
    requires c in children && p in children[c].pools && ip in children[c].pools[p]
    ensures var r := Refreshed(children, st, pods, now);
      var free, reserved, held :=
        ip in FreeOf(r.free, c, p), ip in r.pending, ip in Seen(children, pods);
      && (free || reserved || held)
      && !(free && reserved) && !(free && held) && !(reserved && held)
  {}

  /** What a listed pod of a child of the spec has is neither free nor reserved after a refresh. */
  lemma SeenIsHeld(children: Children, st: Status, pods: set<Pod>, now: nat, q: Pod, c: string, p: string)
    requires q in pods && q.child in children
    ensures var r := Refreshed(children, st, pods, now); q.ip !in r.pending && q.ip !in FreeOf(r.free, c, p)
  {
    assert q.ip in Seen(children, pods);
    FreeOfRefreshed(children, st, pods, now, c, p);
  }

  // ---------------------------------------------------------------- the two, told without their parts

  /** When a request is granted, and for what reason it is denied otherwise; a denial changes nothing,
      and a grant takes the head of the one list and stamps it. */
  lemma AllocateIs(children: Children, st: Status, child: string, pool: string, now: nat)
    ensures var (a, st') := Allocate(children, st, child, pool, now);
      var known := exists k :: k in children && children[k].name == child;
      var left := child in st.free && pool in st.free[child] && |st.free[child][pool]| > 0;
      var ready := child in st.gateways && |st.gateways[child]| > 0;
      && (a.Granted? <==> known && left && ready)
      && (a == Denied(NoSuchChild) <==> !known)
      && (a == Denied(NoFreeAddress) <==> known && !left)
      && (a == Denied(GatewayNotReady) <==> known && left && !ready)
      && (a.Denied? ==> st' == st)
      && (a.Granted? ==> a.ip == st.free[child][pool][0])
  {}

  lemma GrantedIs(children: Children, st: Status, child: string, pool: string, now: nat)
    requires Allocate(children, st, child, pool, now).0.Granted?
    ensures var (a, st') := Allocate(children, st, child, pool, now);
      && st'.gateways == st.gateways
      && (forall ip :: ip in st'.pending <==> ip in st.pending || ip == a.ip)
      && (forall ip :: ip in st'.pending ==>
            st'.pending[ip] == if ip == a.ip then At(now / 1_000_000_000) else st.pending[ip])
      && (forall c :: c in st'.free <==> c in st.free)
      && (forall c, p :: c in st.free ==> (p in st'.free[c] <==> p in st.free[c]))
      && (forall c, p :: c in st.free && p in st.free[c] ==>
            st'.free[c][p] == if c == child && p == pool then st.free[c][p][1..] else st.free[c][p])
  {}

  /** What a refresh leaves: a reservation stays exactly when it has a stamp no more than 35 seconds old
      and no listed pod of a child of the spec has its address; the lists are those of the children of the
      spec, for the pools of the spec and those that had one. */
  lemma RefreshedIs(children: Children, st: Status, pods: set<Pod>, now: nat)
    ensures var r := Refreshed(children, st, pods, now);
      && r.gateways == st.gateways
      && (forall ip :: ip in r.pending <==>
            && ip in st.pending && st.pending[ip].At? && now <= (st.pending[ip].seconds + 35) * 1_000_000_000
            && forall q :: q in pods && q.child in children ==> q.ip != ip)
      && (forall ip :: ip in r.pending ==> r.pending[ip] == st.pending[ip])
      && (forall c :: c in r.free <==> c in children)
      && (forall c, p :: c in children ==>
            (p in r.free[c] <==> p in children[c].pools || (c in st.free && p in st.free[c])))
  {}

  /** Every list is, in order, what the spec lists, or what it was for a pool that left the spec, without
      what is reserved and what a listed pod of a child of the spec has. */
  lemma RefreshedListIs(children: Children, st: Status, pods: set<Pod>, now: nat, c: string, p: string)
      returns (at: seq<nat>)
    requires var r := Refreshed(children, st, pods, now); c in r.free && p in r.free[c]
    ensures var r := Refreshed(children, st, pods, now);
      var base := if p in children[c].pools then children[c].pools[p] else st.free[c][p];
      && Rising(at) && |at| == |r.free[c][p]|
      && (forall i :: 0 <= i < |at| ==> at[i] < |base| && r.free[c][p][i] == base[at[i]])
      && (forall j: nat :: j < |base| ==> (j in at <==>
            base[j] !in r.pending && forall q :: q in pods && q.child in children ==> q.ip != base[j]))
  {
    var r := Refreshed(children, st, pods, now);
    var base := if p in children[c].pools then children[c].pools[p] else st.free[c][p];
    at := WithoutPicks(base, r.pending.Keys + Seen(children, pods));
  }
}

/** For a spec that is not edited: when exactly every run of the protocol is free of double
    allocation. */
module AllocatorExact {
  import opened Api
  import opened Lists
  import opened Allocator
  import opened AllocatorProtocol
  import opened AllocatorCoherence
  import opened AllocatorLimits
  import Admission

  /** No address is offered twice, within a child or by two children. */
  ghost predicate OfferedOnce(children: Children) {
    && (forall c, p :: Distinct(PoolOf(children, c, p)))
    && (forall c, p, q, ip :: ip in PoolOf(children, c, p) && ip in PoolOf(children, c, q) ==> p == q)
    && (forall c, d, p, q, ip :: ip in PoolOf(children, c, p) && ip in PoolOf(children, d, q) ==> c == d)
  }

  /** Two live workers of one child with one address. */
  ghost predicate Doubled(s: State) {
    exists i, j :: i in s.workers && j in s.workers && i != j
      && s.workers[i].child == s.workers[j].child && s.workers[i].ip == s.workers[j].ip
  }

  ghost predicate Unedited(steps: seq<Step>) {
    forall i :: 0 <= i < |steps| ==> !steps[i].Edit?
  }

  ghost predicate Reachable(k: Cluster, s: State, e: State) {
    exists steps :: Possible(k, s, steps) && Unedited(steps) && Run(k, s, steps) == e
  }

  /** Nothing has happened yet; every child is named by its key and has a gateway; and no pod of
      another connection can hold an address of the spec. */
  ghost predicate Fresh(k: Cluster, s: State) {
    var children, gateways := s.obj.children, s.obj.status.gateways;
    && s.obj.status == Status(map[], map[], gateways)
    && s.workers == map[] && s.others == map[] && s.requests == map[] && s.refreshes == map[]
    && (forall c :: c in children ==> children[c].name == c && c in gateways && gateways[c] != "")
    && (forall c, p, ip :: ip in PoolOf(children, c, p) ==> k.home(ip) != Elsewhere)
  }

  // ---------------------------------------------------------------- runs put together

  lemma {:induction false} RunConcat(k: Cluster, s: State, a: seq<Step>, b: seq<Step>)
    requires Possible(k, s, a) && Possible(k, Run(k, s, a), b)
    ensures Possible(k, s, a + b) && Run(k, s, a + b) == Run(k, Run(k, s, a), b)
    decreases |a|
  {
    if a == [] {
      assert a + b == b;
    } else {
      assert (a + b)[0] == a[0] && (a + b)[1..] == a[1..] + b;
      RunConcat(k, Next(s, a[0]), a[1..], b);
    }
  }

  lemma ReachableTransitive(k: Cluster, s: State, m: State, e: State)
    requires Reachable(k, s, m) && Reachable(k, m, e)
    ensures Reachable(k, s, e)
  {
    var a :| Possible(k, s, a) && Unedited(a) && Run(k, s, a) == m;
    var b :| Possible(k, m, b) && Unedited(b) && Run(k, m, b) == e;
    RunConcat(k, s, a, b);
    assert Unedited(a + b);
  }

  lemma ReachableStep(k: Cluster, s: State, step: Step)
    requires Enabled(k, s, step) && !step.Edit?
    ensures Reachable(k, s, Next(s, step))
  {
    var steps := [step];
    assert steps[1..] == [];
    assert Possible(k, Next(s, step), []) && Run(k, Next(s, step), []) == Next(s, step);
    assert Possible(k, s, steps) && Run(k, s, steps) == Next(s, step) && Unedited(steps);
  }

  /** The state after a refresh that nothing interrupts. */
  function AfterRefresh(s: State): State {
    s.(obj := Object(s.obj.version + 1, s.obj.children,
                     Refreshed(s.obj.children, s.obj.status, Listing(s), s.now)))
  }

  /** That state is where the four steps of a refresh lead. */
  lemma RefreshRun(k: Cluster, s: State, f: nat)
    requires f !in s.refreshes
    ensures var steps := [RefreshRead(f), RefreshList(f), RefreshCompute(f), RefreshCommit(f)];
      Possible(k, s, steps) && Run(k, s, steps) == AfterRefresh(s)
  {
    var steps := [RefreshRead(f), RefreshList(f), RefreshCompute(f), RefreshCommit(f)];
    var s1 := Next(s, RefreshRead(f));
    var s2 := Next(s1, RefreshList(f));
    var s3 := Next(s2, RefreshCompute(f));
    assert Listing(s1) == Listing(s);
    assert Next(s3, RefreshCommit(f)).refreshes == s.refreshes;
    assert steps[3..] == [RefreshCommit(f)] && steps[3..][1..] == [];
    assert steps[2..][1..] == steps[3..] && Possible(k, s3, steps[3..]);
    assert steps[1..][1..] == steps[2..] && Possible(k, s2, steps[2..]);
    assert Possible(k, s1, steps[1..]);
    assert Run(k, s3, steps[3..]) == Next(s3, RefreshCommit(f));
    assert Run(k, s2, steps[2..]) == Run(k, s3, steps[3..]);
    assert Run(k, s1, steps[1..]) == Run(k, s2, steps[2..]);
  }

  /** A step, and then a refresh that nothing interrupts. */
  function ThenRefresh(step: Step, f: nat): seq<Step> {
    [step, RefreshRead(f), RefreshList(f), RefreshCompute(f), RefreshCommit(f)]
  }

  lemma ThenRefreshRun(k: Cluster, s: State, step: Step, f: nat)
    requires Enabled(k, s, step) && f !in Next(s, step).refreshes
    ensures Possible(k, s, ThenRefresh(step, f)) && Run(k, s, ThenRefresh(step, f)) == AfterRefresh(Next(s, step))
  {
    RefreshRun(k, Next(s, step), f);
    assert ThenRefresh(step, f)[1..] == [RefreshRead(f), RefreshList(f), RefreshCompute(f), RefreshCommit(f)];
  }

  /** An address reserved for a pod that never came is offered again once 36 seconds have passed and the
      status is refreshed. */
  lemma AbandonedReturns(k: Cluster, s: State, f: nat, c: string, p: string, ip: string)
    requires f !in s.refreshes && forall id :: id in s.workers ==> s.workers[id].visible && s.workers[id].ip != ip
    requires forall id :: id in s.others ==> s.others[id].ip != ip
    requires c in s.obj.children && p in s.obj.children[c].pools && ip in s.obj.children[c].pools[p]
    requires ip in s.obj.status.pending && s.obj.status.pending[ip].At?
    requires s.obj.status.pending[ip].seconds <= s.now / 1_000_000_000
    ensures var steps := ThenRefresh(Tick(36 * 1_000_000_000), f);
      && Possible(k, s, steps)
      && var after := Run(k, s, steps).obj.status;
      && ip !in after.pending
      && c in after.free && p in after.free[c] && ip in after.free[c][p]
  {
    var step := Tick(36 * 1_000_000_000);
    var s' := Next(s, step);
    ThenRefreshRun(k, s, step, f);
    assert ip !in Seen(s'.obj.children, Listing(s'));
    RefreshPartitions(s'.obj.children, s'.obj.status, Listing(s'), s'.now, c, p, ip);
  }

  /** An address that a pod of another connection under a child's name turns out to hold is offered no more
      from the next refresh on. */
  lemma ForeignWithheld(k: Cluster, s: State, f: nat, id: nat, other: Pod, c: string, p: string)
    requires f !in s.refreshes && id !in s.others && k.home(other.ip) == Elsewhere
    requires other.child in s.obj.children
    ensures var steps := ThenRefresh(OtherPodListed(id, other), f);
      && Possible(k, s, steps)
      && var after := Run(k, s, steps).obj.status;
      && other.ip !in after.pending && (c in after.free && p in after.free[c] ==> other.ip !in after.free[c][p])
  {
    var s' := Next(s, OtherPodListed(id, other));
    ThenRefreshRun(k, s, OtherPodListed(id, other), f);
    assert s'.others[id] == other && other in Listing(s');
    SeenIsHeld(s'.obj.children, s'.obj.status, Listing(s'), s'.now, other, c, p);
  }

  /** It is offered again from the refresh after the pod has gone, if the spec lists it and nobody else
      holds it or has it reserved. */
  lemma ForeignReturns(k: Cluster, s: State, f: nat, id: nat, c: string, p: string, ip: string)
    requires f !in s.refreshes && id in s.others && s.others[id].ip == ip && ip !in s.obj.status.pending
    requires c in s.obj.children && p in s.obj.children[c].pools && ip in s.obj.children[c].pools[p]
    requires forall w :: w in s.workers ==> s.workers[w].ip != ip
    requires forall o :: o in s.others && o != id ==> s.others[o].ip != ip
    ensures var steps := ThenRefresh(OtherPodGone(id), f);
      && Possible(k, s, steps)
      && var after := Run(k, s, steps).obj.status;
      && c in after.free && p in after.free[c] && ip in after.free[c][p]
  {
    var s' := Next(s, OtherPodGone(id));
    ThenRefreshRun(k, s, OtherPodGone(id), f);
    assert ip !in Seen(s'.obj.children, Listing(s'));
    RefreshPartitions(s'.obj.children, s'.obj.status, Listing(s'), s'.now, c, p, ip);
  }

  lemma ReachableRefresh(k: Cluster, s: State)
    requires s.refreshes == map[]
    ensures Reachable(k, s, AfterRefresh(s))
  {
    RefreshRun(k, s, 0);
    var steps := [RefreshRead(0), RefreshList(0), RefreshCompute(0), RefreshCommit(0)];
    assert Possible(k, s, steps) && Unedited(steps);
  }

  /** The state after a request that nothing interrupts. */
  function AfterGrant(s: State, c: string, p: string, id: nat): State {
    var (a, st') := Allocate(s.obj.children, s.obj.status, c, p, s.now);
    if a.Denied? then s
    else s.(obj := Object(s.obj.version + 1, s.obj.children, st'), workers := s.workers[id := Worker(c, a.ip, s.now, false)])
  }

  lemma ReachableGrant(k: Cluster, s: State, c: string, p: string, id: nat)
    requires s.requests == map[] && id !in s.workers
    ensures Reachable(k, s, AfterGrant(s, c, p, id))
  {
    var s1 := Next(s, RequestRead(0, c, p));
    var s2 := Next(s1, RequestReserve(0));
    var s3 := Next(s2, RequestCommit(0, id, true));
    ReachableStep(k, s, RequestRead(0, c, p));
    ReachableStep(k, s1, RequestReserve(0));
    ReachableStep(k, s2, RequestCommit(0, id, true));
    ReachableTransitive(k, s, s1, s2);
    ReachableTransitive(k, s, s2, s3);
    assert s3.requests == s.requests;
    assert s3 == AfterGrant(s, c, p, id);
  }

  // ---------------------------------------------------------------- many requests

  /** Between requests: ids from `next` on are unused, and every reservation is of this moment. */
  ghost predicate Calm(s: State, next: nat) {
    && s.requests == map[] && s.refreshes == map[] && s.others == map[]
    && (forall id :: id in s.workers ==> id < next)
    && (forall ip :: ip in s.obj.status.pending ==> s.obj.status.pending[ip] == At(s.now / SECOND))
  }

  /** A child that requests are served for. */
  predicate Asked(s: State, c: string) {
    && c in s.obj.children && s.obj.children[c].name == c
    && c in s.obj.status.gateways && s.obj.status.gateways[c] != ""
  }

  /** What granting the first `n` addresses of a list leads to. */
  ghost predicate Granted(s: State, e: State, c: string, p: string, n: nat, next: nat) {
    var list := FreeOf(s.obj.status.free, c, p);
    && n <= |list|
    && e.obj.children == s.obj.children && e.now == s.now
    && e.obj.status.gateways == s.obj.status.gateways
    && (forall d, q :: FreeOf(e.obj.status.free, d, q) ==
          if d == c && q == p then list[n..] else FreeOf(s.obj.status.free, d, q))
    && (forall ip :: ip in e.obj.status.pending <==> ip in s.obj.status.pending || ip in list[..n])
    && (forall id :: id in s.workers ==> id in e.workers && e.workers[id] == s.workers[id])
    && (forall id :: next <= id < next + n ==> id in e.workers && e.workers[id] == Worker(c, list[id - next], s.now, false))
    && (forall id :: id in e.workers ==> id in s.workers || next <= id < next + n)
  }

  lemma GrantOne(k: Cluster, s: State, c: string, p: string, next: nat)
    requires Calm(s, next) && Asked(s, c) && FreeOf(s.obj.status.free, c, p) != []
    ensures var e := AfterGrant(s, c, p, next);
      && Reachable(k, s, e) && Calm(e, next + 1) && Granted(s, e, c, p, 1, next) && Asked(e, c)
  {
    ReachableGrant(k, s, c, p, next);
    var st := s.obj.status;
    GrantsHead(s.obj.children, st, c, p, s.now);
    FreeOfAllocated(s.obj.children, st, c, p, s.now, c, p);
    var list := FreeOf(st.free, c, p);
    assert list[..1] == [list[0]];
  }

  lemma GrantedNext(s: State, m: State, e: State, c: string, p: string, n: nat, next: nat)
    requires Granted(s, m, c, p, 1, next) && Granted(m, e, c, p, n, next + 1)
    ensures Granted(s, e, c, p, n + 1, next)
  {}

  lemma {:induction false} GrantMany(k: Cluster, s: State, c: string, p: string, n: nat, next: nat) returns (e: State)
    requires Calm(s, next) && Asked(s, c) && n <= |FreeOf(s.obj.status.free, c, p)|
    ensures Reachable(k, s, e) && Calm(e, next + n) && Granted(s, e, c, p, n, next)
    decreases n
  {
    if n == 0 {
      e := s;
      assert Possible(k, s, []) && Unedited([]) && Run(k, s, []) == s;
    } else {
      var m := AfterGrant(s, c, p, next);
      GrantOne(k, s, c, p, next);
      e := GrantMany(k, m, c, p, n - 1, next + 1);
      ReachableTransitive(k, s, m, e);
      GrantedNext(s, m, e, c, p, n - 1, next);
    }
  }

  // ---------------------------------------------------------------- addresses offered twice

  /** The first refresh puts the pools into the free lists. */
  lemma Started(k: Cluster, s: State) returns (e: State)
    requires Fresh(k, s)
    ensures Reachable(k, s, e) && Calm(e, 0) && e.workers == map[] && e.obj.children == s.obj.children && e.now == s.now
    ensures e.obj.status.pending == map[] && e.obj.status.gateways == s.obj.status.gateways
    ensures forall c, p :: FreeOf(e.obj.status.free, c, p) == PoolOf(s.obj.children, c, p)
  {
    e := AfterRefresh(s);
    ReachableRefresh(k, s);
    assert Listing(s) == {};
    forall c, p ensures FreeOf(e.obj.status.free, c, p) == PoolOf(s.obj.children, c, p) {
      NothingTaken(s.obj.children, s.obj.status, s.now, c, p);
    }
    assert Surviving(s.obj.status.pending, {}, s.now) == map[];
  }

  lemma ListedTwice(k: Cluster, s: State, c: string, p: string, i: nat, j: nat) returns (e: State)
    requires Fresh(k, s) && i < j < |PoolOf(s.obj.children, c, p)|
    requires PoolOf(s.obj.children, c, p)[i] == PoolOf(s.obj.children, c, p)[j]
    ensures Reachable(k, s, e) && Doubled(e)
  {
    var m := Started(k, s);
    e := GrantMany(k, m, c, p, j + 1, 0);
    ReachableTransitive(k, s, m, e);
    assert e.workers[i].ip == e.workers[j].ip;
  }

  lemma ListedInTwoPools(k: Cluster, s: State, c: string, p: string, q: string, ip: string) returns (e: State)
    requires Fresh(k, s) && p != q && ip in PoolOf(s.obj.children, c, p) && ip in PoolOf(s.obj.children, c, q)
    ensures Reachable(k, s, e) && Doubled(e)
  {
    var i :| 0 <= i < |PoolOf(s.obj.children, c, p)| && PoolOf(s.obj.children, c, p)[i] == ip;
    var j :| 0 <= j < |PoolOf(s.obj.children, c, q)| && PoolOf(s.obj.children, c, q)[j] == ip;
    var m := Started(k, s);
    var n := GrantMany(k, m, c, p, i + 1, 0);
    e := GrantMany(k, n, c, q, j + 1, i + 1);
    ReachableTransitive(k, s, m, n);
    ReachableTransitive(k, s, n, e);
    assert i in n.workers && e.workers[i] == n.workers[i];
    assert i + 1 + j in e.workers && e.workers[i + 1 + j].ip == ip;
  }

  function IndexOf(list: seq<string>, x: string): (i: nat)
    requires x in list
    ensures i < |list| && list[i] == x && x !in list[..i]
  {
    if list[0] == x then 0
    else
      var i := IndexOf(list[1..], x) + 1;
      assert list[..i] == [list[0]] + list[1..][..i - 1];
      i
  }

  /** The first address of a list that is not taken. */
  lemma FirstLeft(list: seq<string>, j: nat, taken: set<string>)
    requires j < |list| && list[j] !in taken && forall x :: x in list[..j] ==> x in taken
    ensures Without(list, taken) != [] && Without(list, taken)[0] == list[j]
  {
    assert list == list[..j] + ([list[j]] + list[j + 1..]);
    WithoutConcat(list[..j], [list[j]] + list[j + 1..], taken);
    WithoutAll(list[..j], taken);
    WithoutConcat([list[j]], list[j + 1..], taken);
  }

  lemma OneSeen(s: State, id: nat)
    requires id in s.workers && s.others == map[]
    requires forall i :: i in s.workers ==> !s.workers[i].visible
    ensures Listing(Next(s, PodVisible(id))) == {Pod(s.workers[id].child, s.workers[id].ip)}
    ensures Listing(Next(Next(s, PodVisible(id)), PodDeleted(id))) == {}
  {
    var v := Next(s, PodVisible(id));
    assert v.workers[id].visible;
  }

  /** Reservations of this moment survive a refresh at this moment, but for an address it sees. */
  lemma RecentSurvive(pending: map<string, Stamp>, seen: set<string>, now: nat)
    requires forall ip :: ip in pending ==> pending[ip] == At(now / SECOND)
    ensures Surviving(pending, seen, now) == pending - seen
  {}

  /** A pod is listed by one refresh and gone by the next: its address is unreserved. */
  lemma SeenAndGone(k: Cluster, s: State, next: nat, id: nat) returns (e: State)
    requires Calm(s, next) && id in s.workers && s.workers[id].child in s.obj.children
    requires forall i :: i in s.workers ==> !s.workers[i].visible
    ensures Reachable(k, s, e) && Calm(e, next)
    ensures e.workers == s.workers - {id} && e.obj.children == s.obj.children && e.now == s.now
    ensures e.obj.status.gateways == s.obj.status.gateways
    ensures e.obj.status.pending == s.obj.status.pending - {s.workers[id].ip}
    ensures forall d, q :: q in Pools(s.obj.children, d) ==>
      FreeOf(e.obj.status.free, d, q) == Without(PoolOf(s.obj.children, d, q), s.obj.status.pending.Keys - {s.workers[id].ip})
  {
    var w, children := s.workers[id], s.obj.children;
    var v := Next(s, PodVisible(id));
    var r := AfterRefresh(v);
    var x := Next(r, PodDeleted(id));
    e := AfterRefresh(x);
    OneSeen(s, id);
    assert Listing(x) == {} by {
      assert x.workers == s.workers - {id};
    }
    assert Seen(children, {Pod(w.child, w.ip)}) == {w.ip} by {
      assert Pod(w.child, w.ip) in {Pod(w.child, w.ip)};
    }
    RecentSurvive(s.obj.status.pending, {w.ip}, s.now);
    RecentSurvive(r.obj.status.pending, {}, s.now);
    ReachableStep(k, s, PodVisible(id));
    ReachableRefresh(k, v);
    ReachableStep(k, r, PodDeleted(id));
    ReachableRefresh(k, x);
    ReachableTransitive(k, s, v, r);
    ReachableTransitive(k, s, r, x);
    ReachableTransitive(k, s, x, e);
    assert e.obj.status.pending == s.obj.status.pending - {w.ip};
    forall d, q | q in Pools(children, d)
      ensures FreeOf(e.obj.status.free, d, q) == Without(PoolOf(children, d, q), s.obj.status.pending.Keys - {w.ip})
    {
      FreeOfRefreshed(children, x.obj.status, {}, x.now, d, q);
      assert e.obj.status.pending.Keys + Seen(children, {}) == s.obj.status.pending.Keys - {w.ip};
    }
  }

  /** The first `i + 1` addresses of a list are granted: the last one to the worker with the last id. */
  lemma GrantUpTo(k: Cluster, s: State, c: string, p: string, list: seq<string>, i: nat, ip: string, next: nat,
                  last: nat,
                  d: string, q: string) returns (e: State)
    requires last == next + i && Calm(s, next) && Asked(s, c)
    requires FreeOf(s.obj.status.free, c, p) == list && i < |list| && list[i] == ip
    requires forall id :: id in s.workers ==> !s.workers[id].visible
    ensures Reachable(k, s, e) && Calm(e, last + 1) && SameBooks(s, e)
    ensures last in e.workers && HeldBy(e.workers[last], c, ip)
    ensures forall id :: id in s.workers ==> id in e.workers && e.workers[id] == s.workers[id]
    ensures forall id :: id in e.workers ==> !e.workers[id].visible
    ensures d != c ==> FreeOf(e.obj.status.free, d, q) == FreeOf(s.obj.status.free, d, q)
    ensures forall x :: x in list[..i] ==> x in e.obj.status.pending
  {
    e := GrantMany(k, s, c, p, i + 1, next);
    StillInvisible(s, e, c, p, i + 1, next);
    AllReserved(s, e, c, p, i + 1, next);
    assert last in e.workers;
  }

  predicate HeldBy(w: Worker, child: string, ip: string) {
    w.child == child && w.ip == ip
  }

  /** Two live workers of the child hold the address. */
  ghost predicate HeldTwice(s: State, child: string, ip: string) {
    exists i, j :: i in s.workers && j in s.workers && i != j &&
      HeldBy(s.workers[i], child, ip) && HeldBy(s.workers[j], child, ip)
  }

  /** Nothing but requests happened in between. */
  ghost predicate SameBooks(s: State, e: State) {
    e.obj.children == s.obj.children && e.now == s.now && e.obj.status.gateways == s.obj.status.gateways
  }

  /** Both children grant an address, one pod of each. */
  lemma BothGranted(k: Cluster, s: State, c: string, d: string, p: string, q: string, mine: seq<string>,
                    theirs: seq<string>,
                    i: nat, j: nat, ip: string, last: nat) returns (n: State, e: State)
    requires Calm(s, 0) && s.workers == map[] && c != d && last == i + 1 + j
    requires Asked(s, c) && Asked(s, d)
    requires FreeOf(s.obj.status.free, c, p) == mine && i < |mine| && mine[i] == ip
    requires FreeOf(s.obj.status.free, d, q) == theirs && j < |theirs| && theirs[j] == ip
    ensures Reachable(k, s, n) && Reachable(k, n, e)
    ensures Calm(e, last + 1) && SameBooks(s, e)
    ensures i in e.workers && HeldBy(e.workers[i], c, ip)
    ensures last in e.workers && HeldBy(e.workers[last], d, ip)
    ensures forall id :: id in e.workers ==> !e.workers[id].visible
    ensures forall x :: x in theirs[..j] ==> x in e.obj.status.pending
  {
    n := GrantUpTo(k, s, c, p, mine, i, ip, 0, i, d, q);
    e := GrantUpTo(k, n, d, q, theirs, j, ip, i + 1, last, c, p);
    assert i in n.workers && e.workers[i] == n.workers[i];
  }

  lemma StillInvisible(s: State, e: State, c: string, p: string, n: nat, next: nat)
    requires Granted(s, e, c, p, n, next) && forall i :: i in s.workers ==> !s.workers[i].visible
    ensures forall i :: i in e.workers ==> !e.workers[i].visible
  {}

  lemma AllReserved(s: State, e: State, c: string, p: string, n: nat, next: nat)
    requires Granted(s, e, c, p, n, next) && n > 0
    ensures forall x :: x in FreeOf(s.obj.status.free, c, p)[..n - 1] ==> x in e.obj.status.pending
  {}

  /** The pod of one child clears the other child's reservation when it is listed, and once it is
      gone the other child grants the address again while its first pod lives. */
  lemma ListedByTwoChildren(k: Cluster, s: State, c: string, d: string, p: string, q: string, ip: string)
      returns (e: State)
    requires Fresh(k, s) && c != d && ip in PoolOf(s.obj.children, c, p) && ip in PoolOf(s.obj.children, d, q)
    ensures Reachable(k, s, e)
    ensures HeldTwice(e, d, ip)
    ensures Doubled(e)
  {
    var start := Started(k, s);
    var i, j := IndexOf(PoolOf(s.obj.children, c, p), ip), IndexOf(PoolOf(s.obj.children, d, q), ip);
    e := TwiceFromStart(k, start, c, d, p, q, i, j, ip);
    ReachableTransitive(k, s, start, e);
  }

  lemma TwiceFromStart(k: Cluster, s: State, c: string, d: string, p: string, q: string, i: nat, j: nat, ip: string)
      returns (e: State)
    requires Calm(s, 0) && s.workers == map[] && c != d
    requires Asked(s, c) && Asked(s, d) && c in s.obj.children
    requires i < |PoolOf(s.obj.children, c, p)| && PoolOf(s.obj.children, c, p)[i] == ip
    requires j < |PoolOf(s.obj.children, d, q)| && PoolOf(s.obj.children, d, q)[j] == ip
    requires ip !in PoolOf(s.obj.children, d, q)[..j]
    requires FreeOf(s.obj.status.free, c, p) == PoolOf(s.obj.children, c, p)
    requires FreeOf(s.obj.status.free, d, q) == PoolOf(s.obj.children, d, q)
    ensures Reachable(k, s, e)
    ensures HeldTwice(e, d, ip)
  {
    var last: nat := i + 1 + j;
    var pool := PoolOf(s.obj.children, d, q);
    var l, m := BothGranted(k, s, c, d, p, q, PoolOf(s.obj.children, c, p), pool, i, j, ip, last);
    var n := SeenAndGone(k, m, last + 1, i);
    FirstLeft(pool, j, m.obj.status.pending.Keys - {ip});
    e := GrantedAgain(k, n, d, q, last + 1, ip);
    assert Reachable(k, s, e) by {
      ReachableTransitive(k, s, l, m);
      ReachableTransitive(k, s, m, n);
      ReachableTransitive(k, s, n, e);
    }
    assert e.workers[last] == n.workers[last] == m.workers[last];
    assert HeldBy(e.workers[last], d, ip) && HeldBy(e.workers[last + 1], d, ip);
  }

  lemma GrantedAgain(k: Cluster, s: State, c: string, p: string, next: nat, ip: string) returns (e: State)
    requires Calm(s, next) && Asked(s, c)
    requires FreeOf(s.obj.status.free, c, p) != [] && FreeOf(s.obj.status.free, c, p)[0] == ip
    ensures Reachable(k, s, e) && next in e.workers && HeldBy(e.workers[next], c, ip)
    ensures forall id :: id in s.workers ==> id != next && id in e.workers && e.workers[id] == s.workers[id]
  {
    GrantsHead(s.obj.children, s.obj.status, c, p, s.now);
    ReachableGrant(k, s, c, p, next);
    e := AfterGrant(s, c, p, next);
  }

  // ---------------------------------------------------------------- the exact condition

  /** A child that offers an address, if there is one. */
  ghost function Owner(children: Children, ip: string): string {
    if exists c, p :: ip in PoolOf(children, c, p) then
      var c, p :| ip in PoolOf(children, c, p);
      c
    else ""
  }

  /** Whose address it is only matters to runs without edits as far as other connections go. */
  lemma {:induction false} SamePossible(k: Cluster, l: Cluster, s: State, steps: seq<Step>)
    requires k.visibleWithin == l.visibleWithin && k.listSkew == l.listSkew
    requires forall ip :: k.home(ip) == Elsewhere <==> l.home(ip) == Elsewhere
    requires Possible(k, s, steps) && Unedited(steps)
    ensures Possible(l, s, steps) && Run(l, s, steps) == Run(k, s, steps)
    decreases |steps|
  {
    if steps != [] {
      assert !steps[0].Edit?;
      SamePossible(k, l, Next(s, steps[0]), steps[1..]);
    }
  }

  lemma OfferedOnceSafe(k: Cluster, s: State, e: State)
    requires k.Timely() && Fresh(k, s) && OfferedOnce(s.obj.children) && Reachable(k, s, e)
    ensures !Doubled(e)
  {
    var children := s.obj.children;
    var l := Cluster((ip: string) => if k.home(ip) == Elsewhere then Elsewhere else Ours(Owner(children, ip)),
                     k.visibleWithin, k.listSkew);
    forall c, p, ip | ip in PoolOf(children, c, p) ensures l.home(ip) == Ours(c) {
      assert Owner(children, ip) == c;
    }
    var steps :| Possible(k, s, steps) && Unedited(steps) && Run(k, s, steps) == e;
    SamePossible(k, l, s, steps);
    NoDoubleAllocation(l, s, steps);
  }

  /** With a spec that is not edited: two live pods of one child never hold the same address, in any
      run from the start, if and only if no address is offered twice, within a child or by two
      children. */
  lemma NeverDoubledIff(k: Cluster, s: State)
    requires k.Timely() && Fresh(k, s)
    ensures (forall e :: Reachable(k, s, e) ==> !Doubled(e)) <==> OfferedOnce(s.obj.children)
  {
    var children := s.obj.children;
    if OfferedOnce(children) {
      forall e | Reachable(k, s, e) ensures !Doubled(e) {
        OfferedOnceSafe(k, s, e);
      }
    } else if c, p :| !Distinct(PoolOf(children, c, p)) {
      var i, j :| 0 <= i < j < |PoolOf(children, c, p)| && PoolOf(children, c, p)[i] == PoolOf(children, c, p)[j];
      var e := ListedTwice(k, s, c, p, i, j);
    } else if c, p, q, ip :| ip in PoolOf(children, c, p) && ip in PoolOf(children, c, q) && p != q {
      var e := ListedInTwoPools(k, s, c, p, q, ip);
    } else {
      var c, d, p, q, ip :| ip in PoolOf(children, c, p) && ip in PoolOf(children, d, q) && c != d;
      var e := ListedByTwoChildren(k, s, c, d, p, q, ip);
    }
  }

  /** Two children that list one address pass the uniqueness check, and a run leads to two live pods
      of one of them that hold it. */
  lemma SharedAddressGrantedTwice(k: Cluster, s: State, a: string, b: string, p: string, ip: string) returns (e: State)
    requires a != b && Fresh(k, s) && s.obj.children == SharedSpec(a, b, p, ip)
    ensures Admission.Unique(s.obj.children)
    ensures Reachable(k, s, e)
    ensures HeldTwice(e, b, ip)
  {
    SharedSpecUnique(a, b, p, ip);
    e := ListedByTwoChildren(k, s, a, b, p, p, ip);
  }
}

/** How far the allocator's guarantee goes: nothing leaks, and when exactly grants are distinct. */
module AllocatorLimits {
  import opened Api
  import opened Lists
  import opened Allocator
  import opened AllocatorProtocol
  import opened AllocatorCoherence
  import Admission

  // ---------------------------------------------------------------- distinct grants

  /** The addresses granted to requests for pools of child `c`, made one after the other. */
  function Grants(children: Children, st: Status, c: string, pools: seq<string>): seq<string>
    decreases |pools|
  {
    if pools == [] then []
    else
      var (admission, st') := Allocate(children, st, c, pools[0], 0);
      (if admission.Granted? then [admission.ip] else []) + Grants(children, st', c, pools[1..])
  }

  predicate Ready(children: Children, st: Status, c: string) {
    (exists k :: k in children && children[k].name == c) && c in st.gateways && st.gateways[c] != ""
  }

  ghost predicate NoRepeats(st: Status, c: string) {
    && (forall p :: Distinct(FreeOf(st.free, c, p)))
    && (forall p, q, ip :: ip in FreeOf(st.free, c, p) && ip in FreeOf(st.free, c, q) ==> p == q)
  }

  lemma {:induction false} GrantsDistinct(children: Children, st: Status, c: string, pools: seq<string>)
    requires NoRepeats(st, c)
    ensures Distinct(Grants(children, st, c, pools))
    ensures forall ip :: ip in Grants(children, st, c, pools) ==> exists p :: ip in FreeOf(st.free, c, p)
    decreases |pools|
  {
    if pools != [] {
      var (a, st') := Allocate(children, st, c, pools[0], 0);
      if a.Granted? {
        forall p
          ensures Distinct(FreeOf(st'.free, c, p)) && a.ip !in FreeOf(st'.free, c, p)
          ensures a.ip in FreeOf(st.free, c, pools[0])
          ensures forall ip :: ip in FreeOf(st'.free, c, p) ==> ip in FreeOf(st.free, c, p)
        {
          FreeOfAllocated(children, st, c, pools[0], 0, c, p);
          var list := FreeOf(st.free, c, pools[0]);
          assert list[0] in list && list[0] !in list[1..];
          assert p != pools[0] ==> a.ip !in FreeOf(st.free, c, p);
        }
      }
      GrantsDistinct(children, st', c, pools[1..]);
      assert a.Granted? ==> a.ip !in Grants(children, st', c, pools[1..]);
    }
  }

  function Repeat(p: string, n: nat): (r: seq<string>)
    ensures |r| == n
  {
    if n == 0 then [] else [p] + Repeat(p, n - 1)
  }

  lemma TakeOne(children: Children, st: Status, c: string, p: string)
    requires Ready(children, st, c) && FreeOf(st.free, c, p) != []
    ensures var (a, st') := Allocate(children, st, c, p, 0);
      && a == Granted(FreeOf(st.free, c, p)[0]) && Ready(children, st', c)
      && forall q :: FreeOf(st'.free, c, q) == if q == p then FreeOf(st.free, c, q)[1..] else FreeOf(st.free, c, q)
  {}

  /** Asking `n` times for one pool hands out the first `n` addresses of its list. */
  lemma {:induction false} TakeFirst(children: Children, st: Status, c: string, p: string, n: nat, rest: seq<string>)
      returns (end: Status)
    requires Ready(children, st, c) && n <= |FreeOf(st.free, c, p)|
    ensures Grants(children, st, c, Repeat(p, n) + rest) == FreeOf(st.free, c, p)[..n] + Grants(children, end, c, rest)
    ensures Ready(children, end, c)
    ensures forall q :: q != p ==> FreeOf(end.free, c, q) == FreeOf(st.free, c, q)
    decreases n
  {
    if n == 0 {
      assert Repeat(p, n) + rest == rest;
      end := st;
    } else {
      var st' := Allocate(children, st, c, p, 0).1;
      TakeOne(children, st, c, p);
      var more := Repeat(p, n - 1) + rest;
      GrantsNext(children, st, c, p, more);
      assert Repeat(p, n) + rest == [p] + more;
      end := TakeFirst(children, st', c, p, n - 1, rest);
      HeadAndMore(FreeOf(st.free, c, p), n, Grants(children, end, c, rest));
    }
  }

  lemma GrantsNext(children: Children, st: Status, c: string, p: string, more: seq<string>)
    requires Allocate(children, st, c, p, 0).0.Granted?
    ensures var (a, st') := Allocate(children, st, c, p, 0);
      Grants(children, st, c, [p] + more) == [a.ip] + Grants(children, st', c, more)
  {}

  lemma HeadAndMore(list: seq<string>, n: nat, tail: seq<string>)
    requires 0 < n <= |list|
    ensures [list[0]] + (list[1..][..n - 1] + tail) == list[..n] + tail
  {}

  lemma RepeatWithinPool(children: Children, st: Status, c: string, p: string) returns (pools: seq<string>)
    requires Ready(children, st, c) && !Distinct(FreeOf(st.free, c, p))
    ensures !Distinct(Grants(children, st, c, pools))
  {
    var list := FreeOf(st.free, c, p);
    pools := Repeat(p, |list|) + [];
    var end := TakeFirst(children, st, c, p, |list|, []);
    assert Grants(children, end, c, []) == [];
    assert Grants(children, st, c, pools) == list;
  }

  lemma RepeatAcrossPools(children: Children, st: Status, c: string, p: string, q: string, ip: string)
      returns (pools: seq<string>)
    requires Ready(children, st, c)
    requires p != q && ip in FreeOf(st.free, c, p) && ip in FreeOf(st.free, c, q)
    ensures !Distinct(Grants(children, st, c, pools))
  {
    var first, second := FreeOf(st.free, c, p), FreeOf(st.free, c, q);
    var rest := Repeat(q, |second|) + [];
    pools := Repeat(p, |first|) + rest;
    var mid := TakeFirst(children, st, c, p, |first|, rest);
    var end := TakeFirst(children, mid, c, q, |second|, []);
    assert Grants(children, end, c, []) == [];
    var all := Grants(children, st, c, pools);
    assert all == first + second;
    var i :| 0 <= i < |first| && first[i] == ip;
    var j :| 0 <= j < |second| && second[j] == ip;
    assert all[i] == all[|first| + j];
  }

  /** Every sequence of requests for a ready child is granted distinct addresses exactly when no
      address is repeated in the child's free lists. */
  lemma GrantsDistinctIffNoRepeats(children: Children, st: Status, c: string)
    requires Ready(children, st, c)
    ensures (forall pools :: Distinct(Grants(children, st, c, pools))) <==> NoRepeats(st, c)
  {
    if NoRepeats(st, c) {
      forall pools ensures Distinct(Grants(children, st, c, pools)) {
        GrantsDistinct(children, st, c, pools);
      }
    } else if p :| !Distinct(FreeOf(st.free, c, p)) {
      var _ := RepeatWithinPool(children, st, c, p);
    } else {
      var p, q, ip :| ip in FreeOf(st.free, c, p) && ip in FreeOf(st.free, c, q) && p != q;
      var _ := RepeatAcrossPools(children, st, c, p, q, ip);
    }
  }

  /** For a new spec that is: exactly when the pools of the child repeat no address. */
  lemma FreshGrantsDistinctIff(children: Children, gateways: map<string, string>, c: string)
    requires c in children && children[c].name == c && c in gateways && gateways[c] != ""
    ensures var st := Refreshed(children, Status(map[], map[], gateways), {}, 0);
      (forall pools :: Distinct(Grants(children, st, c, pools))) <==> Admission.NoRepeats(children[c].pools)
  {
    var empty := Status(map[], map[], gateways);
    var st := Refreshed(children, empty, {}, 0);
    assert st.pending.Keys + Seen(children, {}) == {};
    forall p ensures FreeOf(st.free, c, p) == PoolOf(children, c, p) {
      FreeOfRefreshed(children, empty, {}, 0, c, p);
      WithoutNone(PoolOf(children, c, p), {});
    }
    GrantsDistinctIffNoRepeats(children, st, c);
    assert Admission.NoRepeats(children[c].pools) ==> NoRepeats(st, c);
    if NoRepeats(st, c) {
      assert forall p :: p in children[c].pools ==> Distinct(PoolOf(children, c, p));
      assert forall p, q, ip :: ip in PoolOf(children, c, p) && ip in PoolOf(children, c, q) ==> p == q;
      assert forall p :: p in children[c].pools ==> PoolOf(children, c, p) == children[c].pools[p];
    }
  }

  /** Every sequence of requests after any refresh is granted distinct addresses exactly when, of what
      the refresh starts from and does not find taken, no address is in two lists of the child or twice
      in one; the lists of pools that left the spec are among them. */
  lemma RefreshedGrantsDistinctIff(children: Children, st: Status, pods: set<Pod>, now: nat, c: string)
    requires c in children && children[c].name == c && c in st.gateways && st.gateways[c] != ""
    ensures var r := Refreshed(children, st, pods, now);
      var taken := r.pending.Keys + Seen(children, pods);
      (forall pools :: Distinct(Grants(children, r, c, pools))) <==>
        && (forall p :: Distinct(Without(Base(children, st, c, p), taken)))
        && (forall p, q, ip :: ip in Base(children, st, c, p) && ip in Base(children, st, c, q) && ip !in taken ==> p == q)
  {
    var r := Refreshed(children, st, pods, now);
    var taken := r.pending.Keys + Seen(children, pods);
    forall p ensures FreeOf(r.free, c, p) == Without(Base(children, st, c, p), taken) {
      FreeOfRefreshed(children, st, pods, now, c, p);
    }
    GrantsDistinctIffNoRepeats(children, r, c);
    if NoRepeats(r, c) {
      forall p, q, ip | ip in Base(children, st, c, p) && ip in Base(children, st, c, q) && ip !in taken
        ensures p == q
      {
        assert ip in FreeOf(r.free, c, p) && ip in FreeOf(r.free, c, q);
      }
    }
  }

  // ---------------------------------------------------------------- what the hypotheses rule out

  /** The lists of a refresh that finds nothing taken. */
  lemma NothingTaken(children: Children, st: Status, now: nat, c: string, p: string)
    requires Surviving(st.pending, {}, now) == map[]
    ensures var r := Refreshed(children, st, {}, now);
      && r.pending == map[] && r.gateways == st.gateways
      && FreeOf(r.free, c, p) == (if c in children then Base(children, st, c, p) else [])
  {
    assert Refreshed(children, st, {}, now).pending.Keys + Seen(children, {}) == {};
    FreeOfRefreshed(children, st, {}, now, c, p);
    WithoutNone(Base(children, st, c, p), {});
  }

  lemma GrantsHead(children: Children, st: Status, c: string, p: string, now: nat)
    requires Ready(children, st, c) && FreeOf(st.free, c, p) != []
    ensures var (a, st') := Allocate(children, st, c, p, now);
      && a == Granted(FreeOf(st.free, c, p)[0])
      && st'.pending == st.pending[FreeOf(st.free, c, p)[0] := At(now / SECOND)]
      && st'.gateways == st.gateways
      && forall d, q :: d != c || q != p ==> FreeOf(st'.free, d, q) == FreeOf(st.free, d, q)
  {}

  /** A pool that goes away keeps its free list: moving its address to another pool offers the
      address twice, although the edit is accepted and the new spec repeats nothing. */
  lemma RetiredPoolRepeats(parse: Admission.Parser, conn: string, c: string, p: string, q: string, ip: string,
                           gateways: map<string, string>)
    requires p != q && c in gateways && gateways[c] != ""
    ensures
      var oldSpec := map[c := PoolsOnly(c, map[p := [ip]])];
      var newSpec := map[c := PoolsOnly(c, map[q := [ip]])];
      var before := Refreshed(oldSpec, Status(map[], map[], gateways), {}, 0);
      var after := Refreshed(newSpec, before, {}, 0);
      && Admission.Accepted(parse, conn, newSpec, oldSpec, [])
      && !RetiredApart(newSpec, before.free)
      && exists pools :: !Distinct(Grants(newSpec, after, c, pools))
  {
    var oldSpec := map[c := PoolsOnly(c, map[p := [ip]])];
    var newSpec := map[c := PoolsOnly(c, map[q := [ip]])];
    MovedPoolAccepted(parse, conn, c, p, q, ip);
    var before := Refreshed(oldSpec, Status(map[], map[], gateways), {}, 0);
    NothingTaken(oldSpec, Status(map[], map[], gateways), 0, c, p);
    assert ip in FreeOf(before.free, c, p) && ip in PoolOf(newSpec, c, q) && p !in Pools(newSpec, c);
    var after := Refreshed(newSpec, before, {}, 0);
    NothingTaken(newSpec, before, 0, c, p);
    NothingTaken(newSpec, before, 0, c, q);
    assert newSpec[c].name == c;
    var _ := RepeatAcrossPools(newSpec, after, c, p, q, ip);
  }

  lemma MovedPoolAccepted(parse: Admission.Parser, conn: string, c: string, p: string, q: string, ip: string)
    requires p != q
    ensures Admission.Accepted(parse, conn, map[c := PoolsOnly(c, map[q := [ip]])], map[c := PoolsOnly(c, map[p := [ip]])], [])
  {}

  function SharedSpec(a: string, b: string, p: string, ip: string): Children {
    map[a := PoolsOnly(a, map[p := [ip]]), b := PoolsOnly(b, map[p := [ip]]).(ifId := 1)]
  }

  lemma SharedSpecUnique(a: string, b: string, p: string, ip: string)
    requires a != b
    ensures Admission.Unique(SharedSpec(a, b, p, ip))
  {}
}

/** The free lists the webhooks maintain step by step agree with recomputing them from the spec. */
module AllocatorCoherence {
  import opened Api
  import opened Lists
  import opened Allocator
  import opened AllocatorProtocol

  /** The free lists are what the spec's pools leave after reservations and listed pods. */
  predicate Coherent(children: Children, st: Status, seen: set<string>) {
    st.free == Subtracted(Rebuilt(children, st.free), st.pending.Keys + seen)
  }

  predicate CoherentNow(s: State) {
    Coherent(s.obj.children, s.obj.status, Seen(s.obj.children, Listing(s)))
  }

  /** Admissions, pods becoming visible and everything else that neither expires a reservation,
      deletes a pod nor edits the spec. */
  predicate Quiet(step: Step) {
    || step.RequestRead? || step.RequestReserve? || step.RequestCommit?
    || step.RefreshRead? || step.RefreshList? || step.RefreshCompute?
    || step.PodVisible? || step.Tick? || step.OtherStatusWrite?
  }

  lemma CoherentLists(children: Children, st: Status, seen: set<string>, c: string, p: string)
    requires Coherent(children, st, seen)
    ensures c in children && (p in children[c].pools || (c in st.free && p in st.free[c])) ==>
      FreeOf(st.free, c, p) == Without(Base(children, st, c, p), st.pending.Keys + seen)
    ensures c !in children ==> FreeOf(st.free, c, p) == []
  {}

  lemma CoherentChild(children: Children, free: FreeIPs, st: Status, taken: set<string>, c: string)
    requires free == st.free && c in children && c in free && children[c].pools.Keys <= free[c].Keys
    requires forall p :: p in free[c] ==> FreeOf(free, c, p) == Without(Base(children, st, c, p), taken)
    ensures free[c] == Subtracted(Rebuilt(children, free), taken)[c]
  {}

  /** Pointwise agreement on every list is agreement of the maps. */
  lemma CoherentFromLists(children: Children, st: Status, seen: set<string>)
    requires st.free.Keys == children.Keys
    requires forall c :: c in children ==> children[c].pools.Keys <= st.free[c].Keys
    requires forall c, p :: c in st.free && p in st.free[c] ==>
      FreeOf(st.free, c, p) == Without(Base(children, st, c, p), st.pending.Keys + seen)
    ensures Coherent(children, st, seen)
  {
    var taken := st.pending.Keys + seen;
    var want := Subtracted(Rebuilt(children, st.free), taken);
    forall c | c in st.free ensures st.free[c] == want[c] {
      CoherentChild(children, st.free, st, taken, c);
    }
    assert want.Keys == st.free.Keys;
  }

  /** Taking the head of a list that is what the base leaves. */
  lemma OwnList(base: seq<string>, retired: bool, taken: set<string>, list: seq<string>)
    requires Distinct(base) && list != [] && list == Without(base, taken) && (retired ==> base == list)
    ensures list[1..] == Without(if retired then list[1..] else base, taken + {list[0]})
  {
    if retired {
      assert forall x :: x in list[1..] ==> x in list;
      assert list[0] !in list[1..];
      WithoutNone(list[1..], taken + {list[0]});
    } else {
      WithoutHead(base, taken);
    }
  }

  lemma OtherList(base: seq<string>, taken: set<string>, ip: string)
    requires ip !in base
    ensures Without(base, taken + {ip}) == Without(base, taken)
  {
    WithoutTwice(base, taken, {ip});
    WithoutNone(Without(base, taken), {ip});
  }

  /** The list an address was granted from. */
  lemma GrantedList(k: Cluster, children: Children, st: Status, seen: set<string>, child: string, pool: string, at: nat)
    requires k.Sound(children) && ListsSound(k, st.free) && RetiredApart(children, st.free)
    requires Coherent(children, st, seen) && Allocate(children, st, child, pool, at).0.Granted?
    ensures var (a, st') := Allocate(children, st, child, pool, at);
      && a.ip in Base(children, st, child, pool)
      && FreeOf(st'.free, child, pool) == Without(Base(children, st', child, pool), st.pending.Keys + seen + {a.ip})
  {
    var taken := st.pending.Keys + seen;
    FreeOfAllocated(children, st, child, pool, at, child, pool);
    CoherentLists(children, st, seen, child, pool);
    BaseSound(k, children, st, child, pool);
    OwnList(Base(children, st, child, pool), pool !in Pools(children, child), taken, FreeOf(st.free, child, pool));
  }

  /** Any other list: the address is not on it. */
  lemma UntouchedList(k: Cluster, children: Children, st: Status, seen: set<string>,
                      child: string, pool: string, ip: string, c: string, p: string)
    requires k.Sound(children) && ListsSound(k, st.free) && RetiredApart(children, st.free)
    requires Coherent(children, st, seen) && ip in Base(children, st, child, pool)
    requires c in st.free && p in st.free[c] && (c != child || p != pool)
    ensures FreeOf(st.free, c, p) == Without(Base(children, st, c, p), st.pending.Keys + seen + {ip})
  {
    CoherentLists(children, st, seen, c, p);
    BaseSound(k, children, st, c, p);
    BaseSound(k, children, st, child, pool);
    OtherList(Base(children, st, c, p), st.pending.Keys + seen, ip);
  }

  lemma AllocatedList(k: Cluster, children: Children, st: Status, seen: set<string>,
                      child: string, pool: string, at: nat, c: string, p: string)
    requires k.Sound(children) && ListsSound(k, st.free) && RetiredApart(children, st.free)
    requires Coherent(children, st, seen) && Allocate(children, st, child, pool, at).0.Granted?
    requires c in st.free && p in st.free[c]
    ensures var (a, st') := Allocate(children, st, child, pool, at);
      FreeOf(st'.free, c, p) == Without(Base(children, st', c, p), st.pending.Keys + seen + {a.ip})
  {
    GrantedList(k, children, st, seen, child, pool, at);
    if c != child || p != pool {
      FreeOfAllocated(children, st, child, pool, at, c, p);
      UntouchedList(k, children, st, seen, child, pool, Allocate(children, st, child, pool, at).0.ip, c, p);
    }
  }

  /** Coherent free lists cover the pools of the spec. */
  lemma CoherentShape(children: Children, st: Status, seen: set<string>)
    requires Coherent(children, st, seen)
    ensures st.free.Keys == children.Keys
    ensures forall c :: c in children ==> children[c].pools.Keys <= st.free[c].Keys
  {}

  /** A grant adds and removes no list, and reserves the address. */
  lemma AllocatedShape(children: Children, st: Status, child: string, pool: string, at: nat)
    requires Allocate(children, st, child, pool, at).0.Granted?
    ensures var (a, st') := Allocate(children, st, child, pool, at);
      && st'.pending.Keys == st.pending.Keys + {a.ip} && st'.free.Keys == st.free.Keys
      && forall c :: c in st.free ==> st'.free[c].Keys == st.free[c].Keys
  {}

  lemma AllocatedCoherent(k: Cluster, children: Children, st: Status, seen: set<string>,
                          child: string, pool: string, at: nat)
    requires k.Sound(children) && ListsSound(k, st.free) && RetiredApart(children, st.free)
    requires Coherent(children, st, seen) && Allocate(children, st, child, pool, at).0.Granted?
    ensures Coherent(children, Allocate(children, st, child, pool, at).1, seen)
  {
    var (a, st') := Allocate(children, st, child, pool, at);
    CoherentShape(children, st, seen);
    AllocatedShape(children, st, child, pool, at);
    var taken := st.pending.Keys + seen + {a.ip};
    forall c, p | c in st'.free && p in st'.free[c]
      ensures FreeOf(st'.free, c, p) == Without(Base(children, st', c, p), taken)
    {
      AllocatedList(k, children, st, seen, child, pool, at, c, p);
    }
    assert st'.pending.Keys + seen == taken;
    CoherentFromLists(children, st', seen);
  }

  lemma VisibleListing(s: State, pod: nat)
    requires pod in s.workers
    ensures Listing(Next(s, PodVisible(pod))) == Listing(s) + {Pod(s.workers[pod].child, s.workers[pod].ip)}
    ensures s.workers[pod].visible ==> Pod(s.workers[pod].child, s.workers[pod].ip) in Listing(s)
  {
    var s' := Next(s, PodVisible(pod));
    forall q | q in Listing(s) ensures q in Listing(s') {
      if id :| id in s.workers && s.workers[id].visible && q == Pod(s.workers[id].child, s.workers[id].ip) {
        assert s'.workers[id].visible && q == Pod(s'.workers[id].child, s'.workers[id].ip);
      }
    }
    assert s'.workers[pod].visible;
  }

  /** A reserved address that becomes visible was taken already. */
  lemma VisibleTaken(children: Children, st: Status, pods: set<Pod>, w: Worker)
    requires Pod(w.child, w.ip) in pods || ReservedFor(st, w)
    ensures st.pending.Keys + Seen(children, pods + {Pod(w.child, w.ip)}) == st.pending.Keys + Seen(children, pods)
  {}

  lemma VisibleCoherent(s: State, pod: nat)
    requires CoherentNow(s) && pod in s.workers
    requires s.workers[pod].visible || ReservedFor(s.obj.status, s.workers[pod])
    ensures CoherentNow(Next(s, PodVisible(pod)))
  {
    var w, children, st := s.workers[pod], s.obj.children, s.obj.status;
    var s' := Next(s, PodVisible(pod));
    VisibleListing(s, pod);
    VisibleTaken(children, st, Listing(s), w);
    assert st.pending.Keys + Seen(children, Listing(s')) == st.pending.Keys + Seen(children, Listing(s));
    assert s'.obj == s.obj;
  }

  lemma SameListing(s: State, s': State)
    requires s'.others == s.others
    requires forall id :: id in s.workers ==> id in s'.workers && s'.workers[id] == s.workers[id]
    requires forall id :: id in s'.workers && id !in s.workers ==> !s'.workers[id].visible
    ensures Listing(s') == Listing(s)
  {}

  /** A commit that goes through writes what granting from the current status gives. */
  lemma CommitWrites(k: Cluster, s: State, step: Step)
    requires Inv(k, s) && step.RequestCommit? && Enabled(k, s, step) && Next(s, step).obj != s.obj
    ensures var q := s.requests[step.r];
      var (a, st') := Allocate(s.obj.children, s.obj.status, q.child, q.pool, q.at);
      a.Granted? && Next(s, step).obj == Object(s.obj.version + 1, s.obj.children, st')
  {}

  lemma GrantedCoherent(k: Cluster, obj: Object, seen: set<string>, child: string, pool: string, at: nat)
    requires k.Sound(obj.children) && ListsSound(k, obj.status.free) && RetiredApart(obj.children, obj.status.free)
    requires Coherent(obj.children, obj.status, seen) && Allocate(obj.children, obj.status, child, pool, at).0.Granted?
    ensures Coherent(obj.children, Allocate(obj.children, obj.status, child, pool, at).1, seen)
  {
    AllocatedCoherent(k, obj.children, obj.status, seen, child, pool, at);
  }

  lemma CommitListing(k: Cluster, s: State, step: Step)
    requires step.RequestCommit? && Enabled(k, s, step)
    ensures Listing(Next(s, step)) == Listing(s)
  {
    SameListing(s, Next(s, step));
  }

  lemma CommitCoherent(k: Cluster, s: State, step: Step)
    requires Inv(k, s) && CoherentNow(s) && step.RequestCommit? && Enabled(k, s, step)
    ensures CoherentNow(Next(s, step))
  {
    CommitListing(k, s, step);
    if Next(s, step).obj != s.obj {
      var q := s.requests[step.r];
      CommitWrites(k, s, step);
      GrantedCoherent(k, s.obj, Seen(s.obj.children, Listing(s)), q.child, q.pool, q.at);
    }
  }

  lemma QuietKeepsCoherent(k: Cluster, s: State, step: Step)
    requires Inv(k, s) && CoherentNow(s) && Enabled(k, s, step) && Quiet(step)
    ensures CoherentNow(Next(s, step))
  {
    if step.PodVisible? {
      VisibleCoherent(s, step.pod);
    } else if step.RequestCommit? {
      CommitCoherent(k, s, step);
    } else {
      SameListing(s, Next(s, step));
    }
  }

  lemma {:induction false} QuietRunCoherent(k: Cluster, s: State, steps: seq<Step>)
    requires k.Timely() && Inv(k, s) && CoherentNow(s) && Possible(k, s, steps)
    requires forall i :: 0 <= i < |steps| ==> Quiet(steps[i])
    ensures CoherentNow(Run(k, s, steps))
    decreases |steps|
  {
    if steps != [] {
      QuietKeepsCoherent(k, s, steps[0]);
      StepKeepsInv(k, s, steps[0]);
      QuietRunCoherent(k, Next(s, steps[0]), steps[1..]);
    }
  }

  lemma {:induction false} RefreshedCoherent(children: Children, st: Status, pods: set<Pod>, now: nat)
    ensures Coherent(children, Refreshed(children, st, pods, now), Seen(children, pods))
  {
    var seen := Seen(children, pods);
    var r := Refreshed(children, st, pods, now);
    var taken := r.pending.Keys + seen;
    forall c, p | c in r.free && p in r.free[c]
      ensures FreeOf(r.free, c, p) == Without(Base(children, r, c, p), taken)
    {
      FreeOfRefreshed(children, st, pods, now, c, p);
      if p !in Pools(children, c) {
        WithoutNone(FreeOf(r.free, c, p), taken);
      }
    }
    CoherentFromLists(children, r, seen);
  }
}

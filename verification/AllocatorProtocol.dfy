/** The allocator as a protocol: webhooks and reconcilers race on one versioned object while pods
    come and go, the clock advances and the spec is edited. */
module AllocatorProtocol {
  import opened Api
  import opened Lists
  import opened Allocator

  datatype Object = Object(version: nat, children: Children, status: Status)

  /** An admitted worker of this connection that has not been deleted. */
  datatype Worker = Worker(child: string, ip: string, stamped: nat, visible: bool)

  datatype Request =
    | Fetched(obj: Object, child: string, pool: string)
    | Reserved(obj: Object, child: string, pool: string, at: nat)

  datatype Refresh =
    | Read(obj: Object)
    | Listed(obj: Object, pods: set<Pod>, at: nat)
    | Computed(version: nat, status: Status)

  datatype State = State(
    obj: Object,
    workers: map<nat, Worker>,
    others: map<nat, Pod>,        // annotated pods of other connections
    requests: map<nat, Request>,
    refreshes: map<nat, Refresh>,
    now: nat)

  datatype Step =
    | RequestRead(r: nat, child: string, pool: string)
    | RequestReserve(r: nat)
    | RequestCommit(r: nat, pod: nat, admitted: bool)
    | RefreshRead(f: nat)
    | RefreshList(f: nat)
    | RefreshCompute(f: nat)
    | RefreshCommit(f: nat)
    | PodVisible(pod: nat)
    | PodDeleted(pod: nat)
    | OtherPodListed(pod: nat, other: Pod)
    | OtherPodGone(pod: nat)
    | Tick(d: nat)
    | Edit(children: Children)
    | OtherStatusWrite(gateways: map<string, string>)

  // ---------------------------------------------------------------- hypotheses

  datatype Home = Ours(child: string) | Elsewhere

  /** What the cluster is assumed to respect: an address belongs to one child of one connection;
      an admitted pod is listed within `visibleWithin` of its reservation, and a refresh looks at
      the clock within `listSkew` of listing the pods, together at most 34 seconds. */
  datatype Cluster = Cluster(home: string -> Home, visibleWithin: nat, listSkew: nat) {
    ghost predicate Timely() {
      visibleWithin + listSkew <= 34 * SECOND
    }

    /** No address twice within a child, and none of another child's or connection's. */
    ghost predicate Sound(children: Children) {
      && (forall c, p :: Distinct(PoolOf(children, c, p)))
      && (forall c, p, q, ip :: ip in PoolOf(children, c, p) && ip in PoolOf(children, c, q) ==> p == q)
      && (forall c, p, ip :: ip in PoolOf(children, c, p) ==> home(ip) == Ours(c))
    }
  }

  /** A pool that has gone from the spec keeps its free list; its addresses must not be listed
      under another pool of the same child meanwhile. */
  ghost predicate RetiredApart(children: Children, free: FreeIPs) {
    forall c, p, q, ip ::
      p !in Pools(children, c) && ip in FreeOf(free, c, p) ==> ip !in PoolOf(children, c, q)
  }

  // ---------------------------------------------------------------- steps

  function Listing(s: State): set<Pod> {
    (set id | id in s.workers && s.workers[id].visible :: Pod(s.workers[id].child, s.workers[id].ip))
    + (set id | id in s.others :: s.others[id])
  }

  ghost predicate Enabled(k: Cluster, s: State, step: Step) {
    match step
    case RequestRead(r, _, _) => r !in s.requests
    case RequestReserve(r) => r in s.requests && s.requests[r].Fetched?
    case RequestCommit(r, pod, admitted) =>
      && r in s.requests && s.requests[r].Reserved?
      && pod !in s.workers
      && (admitted ==> s.now <= s.requests[r].at + k.visibleWithin)
    case RefreshRead(f) => f !in s.refreshes
    case RefreshList(f) => f in s.refreshes && s.refreshes[f].Read?
    case RefreshCompute(f) =>
      f in s.refreshes && s.refreshes[f].Listed? && s.now <= s.refreshes[f].at + k.listSkew
    case RefreshCommit(f) => f in s.refreshes && s.refreshes[f].Computed?
    case PodVisible(pod) => pod in s.workers
    case PodDeleted(pod) => pod in s.workers
    case OtherPodListed(pod, other) => pod !in s.others && k.home(other.ip) == Elsewhere
    case OtherPodGone(pod) => pod in s.others
    case Tick(d) =>
      forall id :: id in s.workers && !s.workers[id].visible ==> s.now + d <= s.workers[id].stamped + k.visibleWithin
    case Edit(children) => k.Sound(children) && RetiredApart(children, s.obj.status.free)
    case OtherStatusWrite(_) => true
  }

  /** The object after a write against version `version`, which only succeeds unchanged. */
  function Written(obj: Object, version: nat, status: Status): Object {
    if version == obj.version then Object(obj.version + 1, obj.children, status) else obj
  }

  function Next(s: State, step: Step): State
    requires step.RequestReserve? ==> step.r in s.requests && s.requests[step.r].Fetched?
    requires step.RequestCommit? ==> step.r in s.requests && s.requests[step.r].Reserved?
    requires step.RefreshList? ==> step.f in s.refreshes && s.refreshes[step.f].Read?
    requires step.RefreshCompute? ==> step.f in s.refreshes && s.refreshes[step.f].Listed?
    requires step.RefreshCommit? ==> step.f in s.refreshes && s.refreshes[step.f].Computed?
    requires step.PodVisible? || step.PodDeleted? ==> step.pod in s.workers
  {
    match step
    case RequestRead(r, child, pool) => s.(requests := s.requests[r := Fetched(s.obj, child, pool)])
    case RequestReserve(r) =>
      var q := s.requests[r];
      s.(requests := s.requests[r := Reserved(q.obj, q.child, q.pool, s.now)])
    case RequestCommit(r, pod, admitted) =>
      var q := s.requests[r];
      var (admission, status) := Allocate(q.obj.children, q.obj.status, q.child, q.pool, q.at);
      var done := s.(requests := s.requests - {r});
      if admission.Denied? || q.obj.version != s.obj.version then done
      else
        done.(obj := Written(s.obj, q.obj.version, status),
              workers := if admitted then s.workers[pod := Worker(q.child, admission.ip, q.at, false)] else s.workers)
    case RefreshRead(f) => s.(refreshes := s.refreshes[f := Read(s.obj)])
    case RefreshList(f) => s.(refreshes := s.refreshes[f := Listed(s.refreshes[f].obj, Listing(s), s.now)])
    case RefreshCompute(f) =>
      var l := s.refreshes[f];
      s.(refreshes := s.refreshes[f := Computed(l.obj.version, Refreshed(l.obj.children, l.obj.status, l.pods, s.now))])
    case RefreshCommit(f) =>
      s.(obj := Written(s.obj, s.refreshes[f].version, s.refreshes[f].status), refreshes := s.refreshes - {f})
    case PodVisible(pod) => s.(workers := s.workers[pod := s.workers[pod].(visible := true)])
    case PodDeleted(pod) => s.(workers := s.workers - {pod})
    case OtherPodListed(pod, other) => s.(others := s.others[pod := other])
    case OtherPodGone(pod) => s.(others := s.others - {pod})
    case Tick(d) => s.(now := s.now + d)
    case Edit(children) => s.(obj := Object(s.obj.version + 1, children, s.obj.status))
    case OtherStatusWrite(gateways) =>
      s.(obj := Written(s.obj, s.obj.version, s.obj.status.(gateways := gateways)))
  }

  ghost predicate Initial(k: Cluster, s: State) {
    && k.Sound(s.obj.children)
    && s.obj.status.free == map[]
    && s.workers == map[] && s.requests == map[] && s.refreshes == map[]
    && (forall id :: id in s.others ==> k.home(s.others[id].ip) == Elsewhere)
  }

  /** `steps` can be taken one after the other from `s`. */
  ghost predicate Possible(k: Cluster, s: State, steps: seq<Step>)
    decreases |steps|
  {
    steps == [] || (Enabled(k, s, steps[0]) && Possible(k, Next(s, steps[0]), steps[1..]))
  }

  ghost function Run(k: Cluster, s: State, steps: seq<Step>): State
    requires Possible(k, s, steps)
    decreases |steps|
  {
    if steps == [] then s else Run(k, Next(s, steps[0]), steps[1..])
  }

  // ---------------------------------------------------------------- the invariant

  /** No address twice in the free lists of a child, and none of another home. */
  ghost predicate ListsSound(k: Cluster, free: FreeIPs) {
    && (forall c, p :: Distinct(FreeOf(free, c, p)))
    && (forall c, p, q, ip :: ip in FreeOf(free, c, p) && ip in FreeOf(free, c, q) ==> p == q)
    && (forall c, p, ip :: ip in FreeOf(free, c, p) ==> k.home(ip) == Ours(c))
  }

  ghost predicate NoneFree(free: FreeIPs, w: Worker) {
    forall c, p :: w.ip !in FreeOf(free, c, p)
  }

  /** A status that may be the stored one while `workers` are alive. */
  ghost predicate Good(k: Cluster, children: Children, st: Status, workers: map<nat, Worker>) {
    && ListsSound(k, st.free)
    && RetiredApart(children, st.free)
    && (forall id :: id in workers ==> NoneFree(st.free, workers[id]))
    && (forall id :: id in workers && !workers[id].visible ==> ReservedFor(st, workers[id]))
  }

  ghost predicate ReservedFor(st: Status, w: Worker) {
    w.ip in st.pending && st.pending[w.ip] == At(w.stamped / SECOND)
  }

  /** What a pod list taken at `at` says about a worker: it is in it, or nobody with its address
      is, and then the reservation was there and recent. */
  ghost predicate Accounted(k: Cluster, st: Status, pods: set<Pod>, at: nat, w: Worker) {
    || (w.visible && Pod(w.child, w.ip) in pods)
    || ((forall q :: q in pods ==> q.ip != w.ip) && ReservedFor(st, w) && at <= w.stamped + k.visibleWithin)
  }

  ghost predicate RequestOk(s: State, q: Request) {
    && q.obj.version <= s.obj.version
    && (q.obj.version == s.obj.version ==> q.obj == s.obj)
  }

  ghost predicate RefreshOk(k: Cluster, s: State, f: Refresh) {
    match f
    case Read(obj) => obj.version <= s.obj.version && (obj.version == s.obj.version ==> obj == s.obj)
    case Listed(obj, pods, at) =>
      && obj.version <= s.obj.version
      && (obj.version == s.obj.version ==>
            obj == s.obj && forall id :: id in s.workers ==> Accounted(k, obj.status, pods, at, s.workers[id]))
    case Computed(version, status) =>
      version <= s.obj.version && (version == s.obj.version ==> Good(k, s.obj.children, status, s.workers))
  }

  ghost predicate WorkersOk(k: Cluster, s: State) {
    && (forall id :: id in s.workers ==> k.home(s.workers[id].ip) == Ours(s.workers[id].child))
    && (forall i, j :: i in s.workers && j in s.workers && i != j ==> s.workers[i].ip != s.workers[j].ip)
    && (forall id :: id in s.workers && !s.workers[id].visible ==> s.now <= s.workers[id].stamped + k.visibleWithin)
    && (forall id :: id in s.others ==> k.home(s.others[id].ip) == Elsewhere)
  }

  ghost predicate Inv(k: Cluster, s: State) {
    && k.Sound(s.obj.children)
    && WorkersOk(k, s)
    && Good(k, s.obj.children, s.obj.status, s.workers)
    && (forall r :: r in s.requests ==> RequestOk(s, s.requests[r]))
    && (forall f :: f in s.refreshes ==> RefreshOk(k, s, s.refreshes[f]))
  }

  // ---------------------------------------------------------------- one writer at a time

  /** A list before subtraction. */
  function Base(children: Children, st: Status, c: string, p: string): seq<string> {
    if p in Pools(children, c) then PoolOf(children, c, p) else FreeOf(st.free, c, p)
  }

  lemma BaseSound(k: Cluster, children: Children, st: Status, c: string, p: string)
    requires k.Sound(children) && ListsSound(k, st.free) && RetiredApart(children, st.free)
    ensures Distinct(Base(children, st, c, p))
    ensures forall ip :: ip in Base(children, st, c, p) ==> k.home(ip) == Ours(c)
    ensures forall q, ip :: ip in Base(children, st, c, p) && ip in Base(children, st, c, q) ==> p == q
  {}

  lemma RefreshedLists(k: Cluster, children: Children, st: Status, pods: set<Pod>, now: nat)
    requires k.Sound(children) && ListsSound(k, st.free) && RetiredApart(children, st.free)
    ensures var free := Refreshed(children, st, pods, now).free; ListsSound(k, free) && RetiredApart(children, free)
  {
    var r := Refreshed(children, st, pods, now);
    forall c, p
      ensures Distinct(FreeOf(r.free, c, p))
      ensures forall ip :: ip in FreeOf(r.free, c, p) ==> ip in Base(children, st, c, p)
    {
      FreeOfRefreshed(children, st, pods, now, c, p);
      BaseSound(k, children, st, c, p);
      WithoutDistinct(Base(children, st, c, p), r.pending.Keys + Seen(children, pods));
    }
    forall c, p, q, ip | ip in FreeOf(r.free, c, p) && ip in FreeOf(r.free, c, q) ensures p == q {
      BaseSound(k, children, st, c, p);
    }
    forall c, p, ip | ip in FreeOf(r.free, c, p) ensures k.home(ip) == Ours(c) {
      BaseSound(k, children, st, c, p);
    }
  }

  /** A reservation that was recent when the pods were listed outlives the refresh. */
  lemma ReservationKept(k: Cluster, st: Status, at: nat, now: nat, w: Worker)
    requires k.Timely() && now <= at + k.listSkew
    requires ReservedFor(st, w) && at <= w.stamped + k.visibleWithin
    ensures !Expired(st.pending[w.ip], now)
  {}

  lemma WorkerNotFreed(k: Cluster, children: Children, st: Status, pods: set<Pod>, at: nat, now: nat, w: Worker)
    requires k.Timely() && k.Sound(children) && ListsSound(k, st.free) && RetiredApart(children, st.free)
    requires now <= at + k.listSkew
    requires Accounted(k, st, pods, at, w) && k.home(w.ip) == Ours(w.child)
    ensures NoneFree(Refreshed(children, st, pods, now).free, w)
  {
    var r := Refreshed(children, st, pods, now);
    var taken := r.pending.Keys + Seen(children, pods);
    if w.child in children {
      assert w.ip in taken by {
        if Pod(w.child, w.ip) !in pods {
          ReservationKept(k, st, at, now, w);
        }
      }
    }
    forall c, p ensures w.ip !in FreeOf(r.free, c, p) {
      FreeOfRefreshed(children, st, pods, now, c, p);
      BaseSound(k, children, st, c, p);
    }
  }

  /** What a refresh computes may be stored, as far as the workers it accounts for go. */
  lemma RefreshedGood(k: Cluster, children: Children, st: Status, pods: set<Pod>, at: nat, now: nat,
                      workers: map<nat, Worker>)
    requires k.Timely() && k.Sound(children) && Good(k, children, st, workers)
    requires now <= at + k.listSkew
    requires forall id :: id in workers ==>
      Accounted(k, st, pods, at, workers[id]) && k.home(workers[id].ip) == Ours(workers[id].child)
    ensures Good(k, children, Refreshed(children, st, pods, now), workers)
  {
    var r := Refreshed(children, st, pods, now);
    RefreshedLists(k, children, st, pods, now);
    forall id | id in workers ensures NoneFree(r.free, workers[id]) {
      WorkerNotFreed(k, children, st, pods, at, now, workers[id]);
    }
    forall id | id in workers && !workers[id].visible ensures ReservedFor(r, workers[id]) {
      ReservationKept(k, st, at, now, workers[id]);
    }
  }

  lemma AllocatedLists(k: Cluster, children: Children, st: Status, child: string, pool: string, at: nat)
    requires ListsSound(k, st.free) && RetiredApart(children, st.free)
    requires Allocate(children, st, child, pool, at).0.Granted?
    ensures var (a, st') := Allocate(children, st, child, pool, at);
      && ListsSound(k, st'.free) && RetiredApart(children, st'.free)
      && a.ip in FreeOf(st.free, child, pool)
      && k.home(a.ip) == Ours(child)
      && (forall c, p :: a.ip !in FreeOf(st'.free, c, p))
      && (forall c, p, ip :: ip in FreeOf(st'.free, c, p) ==> ip in FreeOf(st.free, c, p))
  {
    var (a, st') := Allocate(children, st, child, pool, at);
    forall c, p
      ensures Distinct(FreeOf(st'.free, c, p))
      ensures forall ip :: ip in FreeOf(st'.free, c, p) ==> ip in FreeOf(st.free, c, p)
      ensures a.ip in FreeOf(st.free, child, pool)
      ensures a.ip !in FreeOf(st'.free, c, p)
    {
      FreeOfAllocated(children, st, child, pool, at, c, p);
      var list := FreeOf(st.free, child, pool);
      assert a.ip == list[0] && a.ip in list && Distinct(list);
      assert a.ip !in list[1..];
      if a.ip in FreeOf(st.free, c, p) {
        assert k.home(a.ip) == Ours(c) && c == child && p == pool;
      }
    }
  }

  lemma GoodWithOneMore(k: Cluster, children: Children, st: Status, workers: map<nat, Worker>, pod: nat, w: Worker)
    requires Good(k, children, st, workers) && pod !in workers
    requires NoneFree(st.free, w) && ReservedFor(st, w)
    ensures Good(k, children, st, workers[pod := w])
  {}

  /** What a webhook computes may be stored, with the pod it admits. */
  lemma AllocatedGood(k: Cluster, children: Children, st: Status, child: string, pool: string, at: nat,
                      workers: map<nat, Worker>)
    requires Good(k, children, st, workers)
    requires Allocate(children, st, child, pool, at).0.Granted?
    ensures var (a, st') := Allocate(children, st, child, pool, at);
      && k.home(a.ip) == Ours(child)
      && (forall id :: id in workers ==> workers[id].ip != a.ip)
      && Good(k, children, st', workers)
      && NoneFree(st'.free, Worker(child, a.ip, at, false)) && ReservedFor(st', Worker(child, a.ip, at, false))
  {
    var (a, st') := Allocate(children, st, child, pool, at);
    AllocatedLists(k, children, st, child, pool, at);
    assert st'.pending == st.pending[a.ip := At(at / SECOND)];
    forall id | id in workers ensures workers[id].ip != a.ip && NoneFree(st'.free, workers[id]) {
      assert NoneFree(st.free, workers[id]);
    }
    forall id | id in workers && !workers[id].visible ensures ReservedFor(st', workers[id]) {
      assert ReservedFor(st, workers[id]);
    }
  }

  // ---------------------------------------------------------------- every step keeps the invariant

  /** A write bumps the version, so nothing read before it is current any more. */
  lemma WrittenKeeps(k: Cluster, s: State, s': State)
    requires Inv(k, s)
    requires s'.obj.version == s.obj.version + 1
    requires k.Sound(s'.obj.children) && WorkersOk(k, s')
    requires Good(k, s'.obj.children, s'.obj.status, s'.workers)
    requires forall r :: r in s'.requests ==> r in s.requests && s'.requests[r] == s.requests[r]
    requires forall f :: f in s'.refreshes ==> f in s.refreshes && s'.refreshes[f] == s.refreshes[f]
    ensures Inv(k, s')
  {}

  lemma RequestGrantedKeeps(k: Cluster, s: State, step: Step)
    requires Inv(k, s) && step.RequestCommit? && Enabled(k, s, step)
    requires var q := s.requests[step.r];
      q.obj == s.obj && Allocate(q.obj.children, q.obj.status, q.child, q.pool, q.at).0.Granted?
    ensures Inv(k, Next(s, step))
  {
    var q, s' := s.requests[step.r], Next(s, step);
    var (a, status) := Allocate(s.obj.children, s.obj.status, q.child, q.pool, q.at);
    AllocatedGood(k, s.obj.children, s.obj.status, q.child, q.pool, q.at, s.workers);
    if step.admitted {
      GoodWithOneMore(k, s.obj.children, status, s.workers, step.pod, Worker(q.child, a.ip, q.at, false));
    }
    assert WorkersOk(k, s');
    WrittenKeeps(k, s, s');
  }

  lemma RequestCommitKeeps(k: Cluster, s: State, step: Step)
    requires Inv(k, s) && step.RequestCommit? && Enabled(k, s, step)
    ensures Inv(k, Next(s, step))
  {
    var q := s.requests[step.r];
    assert RequestOk(s, q);
    if q.obj == s.obj && Allocate(q.obj.children, q.obj.status, q.child, q.pool, q.at).0.Granted? {
      RequestGrantedKeeps(k, s, step);
    } else {
      assert Next(s, step) == s.(requests := s.requests - {step.r});
      UnwrittenKeeps(k, s, Next(s, step));
    }
  }

  /** Steps that do not write keep what is known of the reads in flight. */
  lemma UnwrittenKeeps(k: Cluster, s: State, s': State)
    requires Inv(k, s) && s'.obj == s.obj && WorkersOk(k, s')
    requires forall id :: id in s'.workers ==>
      id in s.workers && (s'.workers[id] == s.workers[id] || s'.workers[id] == s.workers[id].(visible := true))
    requires forall r :: r in s'.requests ==>
      (r in s.requests && s'.requests[r] == s.requests[r]) || RequestOk(s', s'.requests[r])
    requires forall f :: f in s'.refreshes ==>
      (f in s.refreshes && s'.refreshes[f] == s.refreshes[f]) || RefreshOk(k, s', s'.refreshes[f])
    ensures Inv(k, s')
  {
    forall st | Good(k, s.obj.children, st, s.workers) ensures Good(k, s.obj.children, st, s'.workers) {
      forall id | id in s'.workers ensures NoneFree(st.free, s'.workers[id]) {
        assert NoneFree(st.free, s.workers[id]);
      }
    }
    forall r | r in s'.requests ensures RequestOk(s', s'.requests[r]) {
      assert r in s.requests && s'.requests[r] == s.requests[r] ==> RequestOk(s, s.requests[r]);
    }
    forall f | f in s'.refreshes && f in s.refreshes && s'.refreshes[f] == s.refreshes[f]
      ensures RefreshOk(k, s', s'.refreshes[f])
    {
      assert RefreshOk(k, s, s.refreshes[f]);
    }
  }

  lemma RefreshListKeeps(k: Cluster, s: State, step: Step)
    requires Inv(k, s) && step.RefreshList? && Enabled(k, s, step)
    ensures Inv(k, Next(s, step))
  {}

  lemma RefreshComputeKeeps(k: Cluster, s: State, step: Step)
    requires k.Timely() && Inv(k, s) && step.RefreshCompute? && Enabled(k, s, step)
    ensures Inv(k, Next(s, step))
  {
    var s', l := Next(s, step), s.refreshes[step.f];
    assert RefreshOk(k, s, l);
    if l.obj.version == s.obj.version {
      RefreshedGood(k, s.obj.children, s.obj.status, l.pods, l.at, s.now, s.workers);
    }
    UnwrittenKeeps(k, s, s');
  }

  lemma RefreshCommitKeeps(k: Cluster, s: State, step: Step)
    requires Inv(k, s) && step.RefreshCommit? && Enabled(k, s, step)
    ensures Inv(k, Next(s, step))
  {}

  lemma ReadStepKeeps(k: Cluster, s: State, step: Step)
    requires Inv(k, s) && Enabled(k, s, step)
    requires step.RequestRead? || step.RequestReserve? || step.RefreshRead?
    ensures Inv(k, Next(s, step))
  {}

  lemma PodStepKeeps(k: Cluster, s: State, step: Step)
    requires Inv(k, s) && Enabled(k, s, step) && (step.PodVisible? || step.PodDeleted?)
    ensures Inv(k, Next(s, step))
  {
    assert WorkersOk(k, Next(s, step));
    UnwrittenKeeps(k, s, Next(s, step));
  }

  lemma EnvironmentStepKeeps(k: Cluster, s: State, step: Step)
    requires Inv(k, s) && Enabled(k, s, step)
    requires step.OtherPodListed? || step.OtherPodGone? || step.Tick?
    ensures Inv(k, Next(s, step))
  {}

  lemma OtherWriteKeeps(k: Cluster, s: State, step: Step)
    requires Inv(k, s) && Enabled(k, s, step) && (step.Edit? || step.OtherStatusWrite?)
    ensures Inv(k, Next(s, step))
  {
    var s' := Next(s, step);
    forall id | id in s.workers ensures NoneFree(s'.obj.status.free, s.workers[id]) {
      assert NoneFree(s.obj.status.free, s.workers[id]);
    }
    forall id | id in s.workers && !s.workers[id].visible ensures ReservedFor(s'.obj.status, s.workers[id]) {
      assert ReservedFor(s.obj.status, s.workers[id]);
    }
    WrittenKeeps(k, s, s');
  }

  lemma StepKeepsInv(k: Cluster, s: State, step: Step)
    requires k.Timely() && Inv(k, s) && Enabled(k, s, step)
    ensures Inv(k, Next(s, step))
  {
    match step
    case RequestRead(_, _, _) => ReadStepKeeps(k, s, step);
    case RequestReserve(_) => ReadStepKeeps(k, s, step);
    case RequestCommit(_, _, _) => RequestCommitKeeps(k, s, step);
    case RefreshRead(_) => ReadStepKeeps(k, s, step);
    case RefreshList(_) => RefreshListKeeps(k, s, step);
    case RefreshCompute(_) => RefreshComputeKeeps(k, s, step);
    case RefreshCommit(_) => RefreshCommitKeeps(k, s, step);
    case Edit(_) => OtherWriteKeeps(k, s, step);
    case OtherStatusWrite(_) => OtherWriteKeeps(k, s, step);
    case PodVisible(_) => PodStepKeeps(k, s, step);
    case PodDeleted(_) => PodStepKeeps(k, s, step);
    case _ => EnvironmentStepKeeps(k, s, step);
  }

  lemma {:induction false} RunKeepsInv(k: Cluster, s: State, steps: seq<Step>)
    requires k.Timely() && Inv(k, s) && Possible(k, s, steps)
    ensures Inv(k, Run(k, s, steps))
    decreases |steps|
  {
    if steps != [] {
      StepKeepsInv(k, s, steps[0]);
      RunKeepsInv(k, Next(s, steps[0]), steps[1..]);
    }
  }

  lemma InitialInv(k: Cluster, s: State)
    requires Initial(k, s)
    ensures Inv(k, s)
  {}

  /** A request that changes anything but itself is for a child of the spec that has a gateway in the
      current status, and takes the head of a list there. */
  lemma CommitNeedsGateway(k: Cluster, s: State, step: Step)
    requires Inv(k, s) && step.RequestCommit? && Enabled(k, s, step)
    requires Next(s, step).workers != s.workers || Next(s, step).obj != s.obj
    ensures var q := s.requests[step.r];
      && q.obj == s.obj
      && (exists key :: key in s.obj.children && s.obj.children[key].name == q.child)
      && q.child in s.obj.status.gateways && |s.obj.status.gateways[q.child]| > 0
      && q.child in s.obj.status.free && q.pool in s.obj.status.free[q.child]
      && |s.obj.status.free[q.child][q.pool]| > 0
    ensures step.admitted ==> step.pod in Next(s, step).workers
    ensures step.admitted ==>
      var q := s.requests[step.r]; Next(s, step).workers[step.pod].ip == s.obj.status.free[q.child][q.pool][0]
  {
    var q := s.requests[step.r];
    assert RequestOk(s, q);
    AllocateIs(q.obj.children, q.obj.status, q.child, q.pool, q.at);
  }

  // ---------------------------------------------------------------- main results

  /** Over any run, two live workers of a child never hold the same address, and none of its
      free lists offers an address a live worker of it holds. */
  lemma NoDoubleAllocation(k: Cluster, s: State, steps: seq<Step>)
    requires k.Timely() && Initial(k, s) && Possible(k, s, steps)
    ensures var e := Run(k, s, steps);
      && (forall i, j :: i in e.workers && j in e.workers && i != j && e.workers[i].child == e.workers[j].child
            ==> e.workers[i].ip != e.workers[j].ip)
      && (forall i, p :: i in e.workers ==> e.workers[i].ip !in FreeOf(e.obj.status.free, e.workers[i].child, p))
  {
    InitialInv(k, s);
    RunKeepsInv(k, s, steps);
    var e := Run(k, s, steps);
    forall i, p | i in e.workers ensures e.workers[i].ip !in FreeOf(e.obj.status.free, e.workers[i].child, p) {
      assert NoneFree(e.obj.status.free, e.workers[i]);
    }
  }
}

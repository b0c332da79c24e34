/** Refreshes that other steps interrupt: what one that goes through commits, what it returns to the
    free lists, and how long a reservation lasts. */
module AllocatorRefresh {
  import opened Api
  import opened Lists
  import opened Allocator
  import opened AllocatorProtocol
  import opened AllocatorCoherence

  // ---------------------------------------------------------------- an interrupted refresh

  /** A refresh from listing the pods to its commit, with the steps others take in between. */
  datatype Refreshing = Refreshing(f: nat, toCompute: seq<Step>, toCommit: seq<Step>)

  predicate OfRefresh(step: Step, f: nat) {
    || (step.RefreshRead? && step.f == f) || (step.RefreshList? && step.f == f)
    || (step.RefreshCompute? && step.f == f) || (step.RefreshCommit? && step.f == f)
  }

  ghost predicate ByOthers(steps: seq<Step>, f: nat) {
    forall i :: 0 <= i < |steps| ==> !OfRefresh(steps[i], f)
  }

  /** The refresh can be taken as told from the state `l`, in which it has read the object. */
  ghost predicate Undergone(k: Cluster, l: State, r: Refreshing) {
    && Enabled(k, l, RefreshList(r.f))
    && var listed := Next(l, RefreshList(r.f));
    && Possible(k, listed, r.toCompute) && ByOthers(r.toCompute, r.f)
    && var m := Run(k, listed, r.toCompute);
    && Enabled(k, m, RefreshCompute(r.f))
    && var computed := Next(m, RefreshCompute(r.f));
    && Possible(k, computed, r.toCommit) && ByOthers(r.toCommit, r.f)
    && Enabled(k, Run(k, computed, r.toCommit), RefreshCommit(r.f))
  }

  /** The state in which the refresh reads the clock. */
  ghost function Clocked(k: Cluster, l: State, r: Refreshing): State
    requires Undergone(k, l, r)
  {
    Run(k, Next(l, RefreshList(r.f)), r.toCompute)
  }

  /** The state before the commit. */
  ghost function Committing(k: Cluster, l: State, r: Refreshing): State
    requires Undergone(k, l, r)
  {
    Run(k, Next(Clocked(k, l, r), RefreshCompute(r.f)), r.toCommit)
  }

  ghost function Finished(k: Cluster, l: State, r: Refreshing): State
    requires Undergone(k, l, r)
  {
    Next(Committing(k, l, r), RefreshCommit(r.f))
  }

  /** No one wrote the object between the read and the commit. */
  ghost predicate GoesThrough(k: Cluster, l: State, r: Refreshing)
    requires Undergone(k, l, r)
  {
    Committing(k, l, r).refreshes[r.f].version == Committing(k, l, r).obj.version
  }

  // ---------------------------------------------------------------- versions and clocks

  /** Every write bumps the version, and time does not go back. */
  ghost predicate Onward(s: State, e: State) {
    s.now <= e.now && s.obj.version <= e.obj.version && (s.obj.version == e.obj.version ==> s.obj == e.obj)
  }

  lemma StepOnward(k: Cluster, s: State, step: Step)
    requires Enabled(k, s, step)
    ensures Onward(s, Next(s, step))
  {}

  lemma {:induction false} RunOnward(k: Cluster, s: State, steps: seq<Step>)
    requires Possible(k, s, steps)
    ensures Onward(s, Run(k, s, steps))
    decreases |steps|
  {
    if steps != [] {
      StepOnward(k, s, steps[0]);
      RunOnward(k, Next(s, steps[0]), steps[1..]);
    }
  }

  lemma StepByOther(k: Cluster, s: State, step: Step, f: nat)
    requires Enabled(k, s, step) && !OfRefresh(step, f) && f in s.refreshes
    ensures f in Next(s, step).refreshes && Next(s, step).refreshes[f] == s.refreshes[f]
  {}

  lemma {:induction false} RunByOthers(k: Cluster, s: State, steps: seq<Step>, f: nat)
    requires Possible(k, s, steps) && ByOthers(steps, f) && f in s.refreshes
    ensures f in Run(k, s, steps).refreshes && Run(k, s, steps).refreshes[f] == s.refreshes[f]
    decreases |steps|
  {
    if steps != [] {
      StepByOther(k, s, steps[0], f);
      RunByOthers(k, Next(s, steps[0]), steps[1..], f);
    }
  }

  // ---------------------------------------------------------------- what a refresh commits

  /** What the refresh is about to write. */
  lemma RefreshCarries(k: Cluster, l: State, r: Refreshing)
    requires Undergone(k, l, r)
    ensures var read, m := l.refreshes[r.f].obj, Clocked(k, l, r);
      Committing(k, l, r).refreshes[r.f] ==
        Computed(read.version, Refreshed(read.children, read.status, Listing(l), m.now))
  {
    var listed := Next(l, RefreshList(r.f));
    RunByOthers(k, listed, r.toCompute, r.f);
    var m := Clocked(k, l, r);
    RunByOthers(k, Next(m, RefreshCompute(r.f)), r.toCommit, r.f);
  }

  lemma RefreshOnward(k: Cluster, l: State, r: Refreshing)
    requires Undergone(k, l, r)
    ensures Onward(l, Clocked(k, l, r)) && Onward(Clocked(k, l, r), Committing(k, l, r))
  {
    RunOnward(k, Next(l, RefreshList(r.f)), r.toCompute);
    RunOnward(k, Next(Clocked(k, l, r), RefreshCompute(r.f)), r.toCommit);
  }

  /** However a refresh is interrupted, if it goes through then the object it read was the current one
      throughout, and it writes what recomputing from that object, the pods listed and the clock gives. */
  lemma RefreshCommits(k: Cluster, l: State, r: Refreshing)
    requires Inv(k, l) && Undergone(k, l, r) && GoesThrough(k, l, r)
    ensures Clocked(k, l, r).obj == l.obj && Committing(k, l, r).obj == l.obj
    ensures Finished(k, l, r).obj == Object(l.obj.version + 1, l.obj.children,
      Refreshed(l.obj.children, l.obj.status, Listing(l), Clocked(k, l, r).now))
  {
    RefreshCarries(k, l, r);
    RefreshOnward(k, l, r);
    assert RefreshOk(k, l, l.refreshes[r.f]);
  }

  /** What is listed, a worker or a pod of another connection that names a child of the spec, is on no
      list and not reserved once the refresh has gone through. */
  lemma ListedIsHeld(k: Cluster, l: State, r: Refreshing, q: Pod, c: string, p: string)
    requires Inv(k, l) && Undergone(k, l, r) && GoesThrough(k, l, r)
    requires || (exists id :: id in l.others && l.others[id] == q)
             || (exists id :: id in l.workers && l.workers[id].visible && l.workers[id].child == q.child && l.workers[id].ip == q.ip)
    requires q.child in l.obj.children
    ensures var after := Finished(k, l, r).obj.status;
      q.ip !in after.pending && (c in after.free && p in after.free[c] ==> q.ip !in after.free[c][p])
  {
    RefreshCommits(k, l, r);
    assert q in Listing(l);
    SeenIsHeld(l.obj.children, l.obj.status, Listing(l), Clocked(k, l, r).now, q, c, p);
  }

  // ---------------------------------------------------------------- an interrupted request

  /** A request from its read to its commit, with the steps others take in between. */
  datatype Requesting = Requesting(r: nat, child: string, pool: string, toReserve: seq<Step>, toCommit: seq<Step>,
                                   pod: nat, admitted: bool) {
    function Read(): Step {
      RequestRead(r, child, pool)
    }

    function Commit(): Step {
      RequestCommit(r, pod, admitted)
    }

    /** None of the steps is one of this request. */
    ghost predicate ByOthers(steps: seq<Step>) {
      forall i :: 0 <= i < |steps| ==>
        !(steps[i].RequestRead? && steps[i].r == r) && !(steps[i].RequestReserve? && steps[i].r == r)
        && !(steps[i].RequestCommit? && steps[i].r == r)
    }

    /** The request can be taken as told from the state `s`. */
    ghost predicate Undertaken(k: Cluster, s: State) {
      && Enabled(k, s, Read())
      && Possible(k, Next(s, Read()), toReserve) && ByOthers(toReserve)
      && var b := Run(k, Next(s, Read()), toReserve);
      && Enabled(k, b, RequestReserve(r))
      && Possible(k, Next(b, RequestReserve(r)), toCommit) && ByOthers(toCommit)
      && Enabled(k, Run(k, Next(b, RequestReserve(r)), toCommit), Commit())
    }

    /** The state in which the request reads the clock. */
    ghost function Stamping(k: Cluster, s: State): State
      requires Undertaken(k, s)
    {
      Run(k, Next(s, Read()), toReserve)
    }

    /** The state before the commit. */
    ghost function Before(k: Cluster, s: State): State
      requires Undertaken(k, s)
    {
      Run(k, Next(Stamping(k, s), RequestReserve(r)), toCommit)
    }
  }

  lemma {:induction false} RequestStands(k: Cluster, s: State, steps: seq<Step>, q: Requesting)
    requires Possible(k, s, steps) && q.ByOthers(steps) && q.r in s.requests
    ensures q.r in Run(k, s, steps).requests && Run(k, s, steps).requests[q.r] == s.requests[q.r]
    decreases |steps|
  {
    if steps != [] {
      OtherRequestStands(k, s, steps[0], q.r);
      RequestStands(k, Next(s, steps[0]), steps[1..], q);
    }
  }

  lemma OtherRequestStands(k: Cluster, s: State, step: Step, r: nat)
    requires Enabled(k, s, step) && r in s.requests
    requires !(step.RequestRead? && step.r == r) && !(step.RequestReserve? && step.r == r)
    requires !(step.RequestCommit? && step.r == r)
    ensures r in Next(s, step).requests && Next(s, step).requests[r] == s.requests[r]
  {}

  lemma RequestCarries(k: Cluster, s: State, q: Requesting)
    requires q.Undertaken(k, s)
    ensures var d := q.Before(k, s);
      && q.r in d.requests && d.requests[q.r] == Reserved(s.obj, q.child, q.pool, q.Stamping(k, s).now)
      && Onward(s, q.Stamping(k, s)) && Onward(q.Stamping(k, s), d)
  {
    var a, b := Next(s, q.Read()), q.Stamping(k, s);
    RequestStands(k, a, q.toReserve, q);
    RunOnward(k, a, q.toReserve);
    var c := Next(b, RequestReserve(q.r));
    RequestStands(k, c, q.toCommit, q);
    RunOnward(k, c, q.toCommit);
  }

  /** However a request is interrupted: if it has any effect, the object it read was the current one
      throughout, and it takes the head of the list there, stamped when it read the clock. */
  lemma RequestCommits(k: Cluster, s: State, q: Requesting)
    requires q.Undertaken(k, s)
    requires var d := q.Before(k, s); Next(d, q.Commit()).obj != d.obj || Next(d, q.Commit()).workers != d.workers
    ensures var b, d := q.Stamping(k, s), q.Before(k, s);
      && b.obj == s.obj && d.obj == s.obj
      && q.child in s.obj.status.free && q.pool in s.obj.status.free[q.child] && s.obj.status.free[q.child][q.pool] != []
      && var ip := s.obj.status.free[q.child][q.pool][0];
      && Next(d, q.Commit()).obj.version == s.obj.version + 1
      && Next(d, q.Commit()).obj.status.pending == s.obj.status.pending[ip := At(b.now / 1_000_000_000)]
      && Next(d, q.Commit()).workers == if q.admitted then d.workers[q.pod := Worker(q.child, ip, b.now, false)] else d.workers
  {
    RequestCarries(k, s, q);
    AllocateIs(s.obj.children, s.obj.status, q.child, q.pool, q.Stamping(k, s).now);
  }

  lemma ClockSkew(k: Cluster, l: State, r: Refreshing)
    requires Undergone(k, l, r)
    ensures l.now <= Clocked(k, l, r).now <= l.now + k.listSkew
  {
    RefreshOnward(k, l, r);
    RunByOthers(k, Next(l, RefreshList(r.f)), r.toCompute, r.f);
  }

  lemma FinishedInv(k: Cluster, l: State, r: Refreshing)
    requires k.Timely() && Inv(k, l) && Undergone(k, l, r)
    ensures Inv(k, Clocked(k, l, r)) && Inv(k, Committing(k, l, r)) && Inv(k, Finished(k, l, r))
  {
    StepKeepsInv(k, l, RefreshList(r.f));
    RunKeepsInv(k, Next(l, RefreshList(r.f)), r.toCompute);
    var m := Clocked(k, l, r);
    StepKeepsInv(k, m, RefreshCompute(r.f));
    RunKeepsInv(k, Next(m, RefreshCompute(r.f)), r.toCommit);
    StepKeepsInv(k, Committing(k, l, r), RefreshCommit(r.f));
  }

  /** After any run, a refresh that goes through, whatever interrupts it, returns every listed address
      that no live worker held when it listed the pods and no reservation of the last 35 seconds
      covered when it read the clock. */
  lemma NothingLeaks(k: Cluster, s: State, before: seq<Step>, r: Refreshing, c: string, p: string, ip: string)
    requires k.Timely() && Initial(k, s) && Possible(k, s, before)
    requires Undergone(k, Run(k, s, before), r) && GoesThrough(k, Run(k, s, before), r)
    requires var l := Run(k, s, before);
      && c in l.obj.children && p in l.obj.children[c].pools && ip in l.obj.children[c].pools[p]
      && (forall id :: id in l.workers ==> l.workers[id].ip != ip)
      && (ip in l.obj.status.pending ==> Expired(l.obj.status.pending[ip], Clocked(k, l, r).now))
    ensures ip in FreeOf(Finished(k, Run(k, s, before), r).obj.status.free, c, p)
  {
    var l := Run(k, s, before);
    InitialInv(k, s);
    RunKeepsInv(k, s, before);
    RefreshCommits(k, l, r);
    Returned(k, l, Clocked(k, l, r).now, c, p, ip);
  }

  lemma Returned(k: Cluster, l: State, now: nat, c: string, p: string, ip: string)
    requires Inv(k, l) && c in l.obj.children && p in l.obj.children[c].pools && ip in l.obj.children[c].pools[p]
    requires forall id :: id in l.workers ==> l.workers[id].ip != ip
    requires ip in l.obj.status.pending ==> Expired(l.obj.status.pending[ip], now)
    ensures ip in FreeOf(Refreshed(l.obj.children, l.obj.status, Listing(l), now).free, c, p)
  {
    assert ip in PoolOf(l.obj.children, c, p) && k.home(ip) == Ours(c);
    assert ip !in Seen(l.obj.children, Listing(l));
    RefreshPartitions(l.obj.children, l.obj.status, Listing(l), now, c, p, ip);
  }

  // ---------------------------------------------------------------- agreement with recomputing

  ghost predicate AllQuiet(steps: seq<Step>) {
    forall i :: 0 <= i < |steps| ==> Quiet(steps[i])
  }

  /** As long as nobody writes, quiet steps only make workers visible. */
  ghost predicate Calmly(s: State, e: State) {
    && s.obj.version <= e.obj.version
    && (s.obj.version == e.obj.version ==>
          && e.others == s.others && e.workers.Keys == s.workers.Keys
          && forall id :: id in s.workers ==> e.workers[id] in {s.workers[id], s.workers[id].(visible := true)})
  }

  lemma QuietCalmly(k: Cluster, s: State, step: Step)
    requires Enabled(k, s, step) && Quiet(step)
    ensures Calmly(s, Next(s, step))
  {}

  lemma CalmlyOn(s: State, m: State, e: State)
    requires Calmly(s, m) && Calmly(m, e)
    ensures Calmly(s, e)
  {}

  lemma {:induction false} QuietRunCalmly(k: Cluster, s: State, steps: seq<Step>)
    requires Possible(k, s, steps) && AllQuiet(steps)
    ensures Calmly(s, Run(k, s, steps))
    decreases |steps|
  {
    if steps != [] {
      QuietCalmly(k, s, steps[0]);
      QuietRunCalmly(k, Next(s, steps[0]), steps[1..]);
      CalmlyOn(s, Next(s, steps[0]), Run(k, s, steps));
    }
  }

  lemma RefreshCalmly(k: Cluster, l: State, r: Refreshing)
    requires Undergone(k, l, r) && AllQuiet(r.toCompute) && AllQuiet(r.toCommit)
    ensures Calmly(l, Committing(k, l, r))
  {
    var listed, m := Next(l, RefreshList(r.f)), Clocked(k, l, r);
    var computed := Next(m, RefreshCompute(r.f));
    QuietCalmly(k, l, RefreshList(r.f));
    QuietRunCalmly(k, listed, r.toCompute);
    QuietCalmly(k, m, RefreshCompute(r.f));
    QuietRunCalmly(k, computed, r.toCommit);
    CalmlyOn(l, listed, m);
    CalmlyOn(l, m, computed);
    CalmlyOn(l, computed, Committing(k, l, r));
  }

  /** A worker that was alive when the pods were listed is covered by what the refresh computes. */
  lemma WorkerCovered(k: Cluster, l: State, now: nat, id: nat)
    requires k.Timely() && Inv(k, l) && l.now <= now <= l.now + k.listSkew
    requires id in l.workers && l.workers[id].child in l.obj.children
    ensures l.workers[id].ip in
      Refreshed(l.obj.children, l.obj.status, Listing(l), now).pending.Keys + Seen(l.obj.children, Listing(l))
  {
    var w := l.workers[id];
    if w.visible {
      assert Pod(w.child, w.ip) in Listing(l);
    } else {
      ReservationKept(k, l.obj.status, l.now, now, w);
    }
  }

  lemma StillSeen(l: State, e: State)
    requires Calmly(l, e) && l.obj.version == e.obj.version
    ensures Listing(l) <= Listing(e)
    ensures forall q :: q in Listing(e) ==>
      q in Listing(l) || exists id :: id in l.workers && q == Pod(l.workers[id].child, l.workers[id].ip)
  {
    forall q | q in Listing(l) ensures q in Listing(e) {
      if id :| id in l.workers && l.workers[id].visible && q == Pod(l.workers[id].child, l.workers[id].ip) {
        assert e.workers[id].visible && q == Pod(e.workers[id].child, e.workers[id].ip);
      }
    }
    forall q | q in Listing(e)
      ensures q in Listing(l) || exists id :: id in l.workers && q == Pod(l.workers[id].child, l.workers[id].ip)
    {
      if id :| id in e.workers && e.workers[id].visible && q == Pod(e.workers[id].child, e.workers[id].ip) {
        assert id in l.workers && q == Pod(l.workers[id].child, l.workers[id].ip);
      }
    }
  }

  lemma SameTaken(k: Cluster, l: State, e: State, now: nat)
    requires k.Timely() && Inv(k, l) && l.now <= now <= l.now + k.listSkew
    requires Calmly(l, e) && l.obj.version == e.obj.version
    ensures var pending := Refreshed(l.obj.children, l.obj.status, Listing(l), now).pending;
      pending.Keys + Seen(l.obj.children, Listing(e)) == pending.Keys + Seen(l.obj.children, Listing(l))
  {
    var children := l.obj.children;
    var taken := Refreshed(children, l.obj.status, Listing(l), now).pending.Keys + Seen(children, Listing(l));
    StillSeen(l, e);
    forall ip | ip in Seen(children, Listing(e)) ensures ip in taken {
      var q :| q in Listing(e) && q.child in children && q.ip == ip;
      if q !in Listing(l) {
        var id :| id in l.workers && q == Pod(l.workers[id].child, l.workers[id].ip);
        WorkerCovered(k, l, now, id);
      }
    }
  }

  lemma RewrittenCoherent(l: State, pods: set<Pod>, now: nat, n: State)
    requires var r := Refreshed(l.obj.children, l.obj.status, Listing(l), now);
      && n.obj.children == l.obj.children && n.obj.status == r && Listing(n) == pods
      && r.pending.Keys + Seen(l.obj.children, pods) == r.pending.Keys + Seen(l.obj.children, Listing(l))
    ensures CoherentNow(n)
  {
    RefreshedCoherent(l.obj.children, l.obj.status, Listing(l), now);
  }

  /** Quiet steps before the commit leave what is taken as it was. */
  lemma CommittingTaken(k: Cluster, l: State, r: Refreshing)
    requires k.Timely() && Inv(k, l) && Undergone(k, l, r) && GoesThrough(k, l, r)
    requires AllQuiet(r.toCompute) && AllQuiet(r.toCommit)
    ensures var pending := Refreshed(l.obj.children, l.obj.status, Listing(l), Clocked(k, l, r).now).pending;
      pending.Keys + Seen(l.obj.children, Listing(Committing(k, l, r))) == pending.Keys + Seen(l.obj.children, Listing(l))
  {
    RefreshCommits(k, l, r);
    RefreshCalmly(k, l, r);
    ClockSkew(k, l, r);
    SameTaken(k, l, Committing(k, l, r), Clocked(k, l, r).now);
  }

  lemma CommitKeepsListing(k: Cluster, e: State, f: nat)
    requires Enabled(k, e, RefreshCommit(f))
    ensures Listing(Next(e, RefreshCommit(f))) == Listing(e)
  {}

  lemma FinishedCoherent(k: Cluster, l: State, r: Refreshing)
    requires k.Timely() && Inv(k, l) && Undergone(k, l, r) && GoesThrough(k, l, r)
    requires AllQuiet(r.toCompute) && AllQuiet(r.toCommit)
    ensures CoherentNow(Finished(k, l, r))
  {
    CommittingTaken(k, l, r);
    RefreshCommits(k, l, r);
    CommitKeepsListing(k, Committing(k, l, r), r.f);
    RewrittenCoherent(l, Listing(Committing(k, l, r)), Clocked(k, l, r).now, Finished(k, l, r));
  }

  /** Recomputing changes nothing in this state. */
  predicate Recomputes(e: State) {
    (forall ip :: ip in e.obj.status.pending ==> !Expired(e.obj.status.pending[ip], e.now)) ==>
      Refreshed(e.obj.children, e.obj.status, Listing(e), e.now).free == e.obj.status.free
  }

  lemma CoherentRecomputes(e: State)
    requires CoherentNow(e)
    ensures Recomputes(e)
  {
    if forall ip :: ip in e.obj.status.pending ==> !Expired(e.obj.status.pending[ip], e.now) {
      var seen := Seen(e.obj.children, Listing(e));
      assert Surviving(e.obj.status.pending, seen, e.now).Keys + seen == e.obj.status.pending.Keys + seen;
    }
  }

  lemma QuietRecomputes(k: Cluster, n: State, after: seq<Step>)
    requires k.Timely() && Inv(k, n) && CoherentNow(n) && Possible(k, n, after) && AllQuiet(after)
    ensures Recomputes(Run(k, n, after))
  {
    QuietRunCoherent(k, n, after);
    CoherentRecomputes(Run(k, n, after));
  }

  lemma FinishedRecomputes(k: Cluster, l: State, r: Refreshing, after: seq<Step>)
    requires k.Timely() && Inv(k, l) && Undergone(k, l, r) && GoesThrough(k, l, r)
    requires Possible(k, Finished(k, l, r), after)
    requires AllQuiet(r.toCompute) && AllQuiet(r.toCommit) && AllQuiet(after)
    ensures Recomputes(Run(k, Finished(k, l, r), after))
  {
    FinishedInv(k, l, r);
    FinishedCoherent(k, l, r);
    QuietRecomputes(k, Finished(k, l, r), after);
  }

  /** After any run, a refresh that goes through and any further admissions and pod appearances,
      rebuilding the free lists from the spec changes nothing, order included, as long as no
      reservation has expired; requests may come in between and pods appear during the refresh. */
  lemma RecomputingChangesNothing(k: Cluster, s: State, before: seq<Step>, r: Refreshing, after: seq<Step>)
    requires k.Timely() && Initial(k, s) && Possible(k, s, before)
    requires Undergone(k, Run(k, s, before), r) && GoesThrough(k, Run(k, s, before), r)
    requires Possible(k, Finished(k, Run(k, s, before), r), after)
    requires AllQuiet(r.toCompute) && AllQuiet(r.toCommit) && AllQuiet(after)
    ensures Recomputes(Run(k, Finished(k, Run(k, s, before), r), after))
  {
    var l := Run(k, s, before);
    InitialInv(k, s);
    RunKeepsInv(k, s, before);
    FinishedRecomputes(k, l, r, after);
  }

  // ---------------------------------------------------------------- how long a reservation lasts

  predicate StampedSince(stamp: Stamp, t: nat) {
    stamp.At? && stamp.seconds >= t / SECOND
  }

  /** A reservation made at `t`, and nothing in flight that could undo it. */
  ghost predicate Holds(s: State, ip: string, t: nat) {
    && t <= s.now && ip in s.obj.status.pending && StampedSince(s.obj.status.pending[ip], t)
    && (forall r :: r in s.requests && s.requests[r].Reserved? && s.requests[r].obj.version == s.obj.version ==>
          t <= s.requests[r].at)
    && (forall f :: f in s.refreshes ==> HoldsIn(s, s.refreshes[f], ip, t))
  }

  ghost predicate HoldsIn(s: State, f: Refresh, ip: string, t: nat) {
    match f
    case Read(_) => true
    case Listed(obj, pods, _) => obj.version == s.obj.version ==> forall q :: q in pods ==> q.ip != ip
    case Computed(version, status) =>
      version == s.obj.version ==> ip in status.pending && StampedSince(status.pending[ip], t)
  }

  ghost predicate Unseen(s: State, ip: string) {
    forall q :: q in Listing(s) ==> q.ip != ip
  }

  lemma ComputedHolds(children: Children, st: Status, pods: set<Pod>, now: nat, ip: string, t: nat)
    requires ip in st.pending && StampedSince(st.pending[ip], t)
    requires (forall q :: q in pods ==> q.ip != ip) && now <= t + 34 * SECOND
    ensures var r := Refreshed(children, st, pods, now); ip in r.pending && StampedSince(r.pending[ip], t)
  {}

  lemma RequestHolds(k: Cluster, s: State, step: Step, ip: string, t: nat)
    requires Inv(k, s) && Enabled(k, s, step) && Holds(s, ip, t)
    requires step.RequestRead? || step.RequestReserve? || step.RequestCommit?
    ensures Holds(Next(s, step), ip, t)
  {
    if step.RequestCommit? {
      assert RequestOk(s, s.requests[step.r]);
      NewVersionHolds(k, s, Next(s, step), ip, t);
    }
  }

  /** After a write nothing in flight counts. */
  lemma NewVersionHolds(k: Cluster, s: State, s': State, ip: string, t: nat)
    requires Inv(k, s)
    ensures s'.obj.version == s.obj.version + 1 && t <= s'.now
      && ip in s'.obj.status.pending && StampedSince(s'.obj.status.pending[ip], t)
      && (forall r :: r in s'.requests ==> r in s.requests && s'.requests[r] == s.requests[r])
      && (forall f :: f in s'.refreshes ==> f in s.refreshes && s'.refreshes[f] == s.refreshes[f])
      ==> Holds(s', ip, t)
  {}

  lemma ComputeHolds(k: Cluster, s: State, f: nat, ip: string, t: nat)
    requires Inv(k, s) && Enabled(k, s, RefreshCompute(f)) && Holds(s, ip, t) && s.now <= t + 34 * SECOND
    ensures Holds(Next(s, RefreshCompute(f)), ip, t)
  {
    var l := s.refreshes[f];
    assert RefreshOk(k, s, l) && HoldsIn(s, l, ip, t);
    if l.obj.version == s.obj.version {
      ComputedHolds(l.obj.children, l.obj.status, l.pods, s.now, ip, t);
    }
  }

  lemma CommitHolds(k: Cluster, s: State, f: nat, ip: string, t: nat)
    requires Inv(k, s) && Enabled(k, s, RefreshCommit(f)) && Holds(s, ip, t)
    ensures Holds(Next(s, RefreshCommit(f)), ip, t)
  {
    assert HoldsIn(s, s.refreshes[f], ip, t);
    NewVersionHolds(k, s, Next(s, RefreshCommit(f)), ip, t);
  }

  lemma RefreshHolds(k: Cluster, s: State, step: Step, ip: string, t: nat)
    requires Inv(k, s) && Enabled(k, s, step) && Holds(s, ip, t) && Unseen(s, ip) && s.now <= t + 34 * SECOND
    requires step.RefreshRead? || step.RefreshList? || step.RefreshCompute? || step.RefreshCommit?
    ensures Holds(Next(s, step), ip, t)
  {
    if step.RefreshCompute? {
      ComputeHolds(k, s, step.f, ip, t);
    } else if step.RefreshCommit? {
      CommitHolds(k, s, step.f, ip, t);
    }
  }

  lemma OtherHolds(k: Cluster, s: State, step: Step, ip: string, t: nat)
    requires Inv(k, s) && Enabled(k, s, step) && Holds(s, ip, t)
    requires step.Edit? || step.OtherStatusWrite? || step.PodVisible? || step.PodDeleted?
      || step.OtherPodListed? || step.OtherPodGone? || step.Tick?
    ensures Holds(Next(s, step), ip, t)
  {
    NewVersionHolds(k, s, Next(s, step), ip, t);
  }

  lemma StepHolds(k: Cluster, s: State, step: Step, ip: string, t: nat)
    requires Inv(k, s) && Enabled(k, s, step) && Holds(s, ip, t) && Unseen(s, ip) && s.now <= t + 34 * SECOND
    ensures Holds(Next(s, step), ip, t)
  {
    if step.RequestRead? || step.RequestReserve? || step.RequestCommit? {
      RequestHolds(k, s, step, ip, t);
    } else if step.RefreshRead? || step.RefreshList? || step.RefreshCompute? || step.RefreshCommit? {
      RefreshHolds(k, s, step, ip, t);
    } else {
      OtherHolds(k, s, step, ip, t);
    }
  }

  /** No pod with the address is ever listed on the way. */
  ghost predicate NeverSeen(k: Cluster, s: State, steps: seq<Step>, ip: string)
    requires Possible(k, s, steps)
    decreases |steps|
  {
    Unseen(s, ip) && (steps != [] ==> NeverSeen(k, Next(s, steps[0]), steps[1..], ip))
  }

  lemma {:induction false} RunHolds(k: Cluster, s: State, steps: seq<Step>, ip: string, t: nat)
    requires k.Timely() && Inv(k, s) && Possible(k, s, steps) && Holds(s, ip, t)
    requires NeverSeen(k, s, steps, ip) && Run(k, s, steps).now <= t + 34 * SECOND
    ensures Holds(Run(k, s, steps), ip, t)
    decreases |steps|
  {
    if steps != [] {
      RunOnward(k, s, steps);
      StepHolds(k, s, steps[0], ip, t);
      StepKeepsInv(k, s, steps[0]);
      RunHolds(k, Next(s, steps[0]), steps[1..], ip, t);
    }
  }

  /** Stamps are of the past. */
  ghost predicate StampsPast(s: State) {
    forall r :: r in s.requests && s.requests[r].Reserved? ==> s.requests[r].at <= s.now
  }

  lemma {:induction false} RunStampsPast(k: Cluster, s: State, steps: seq<Step>)
    requires Possible(k, s, steps) && StampsPast(s)
    ensures StampsPast(Run(k, s, steps))
    decreases |steps|
  {
    if steps != [] {
      StepStampsPast(k, s, steps[0]);
      RunStampsPast(k, Next(s, steps[0]), steps[1..]);
    }
  }

  lemma StepStampsPast(k: Cluster, s: State, step: Step)
    requires Enabled(k, s, step) && StampsPast(s)
    ensures StampsPast(Next(s, step))
  {}

  /** A grant that goes through. */
  ghost predicate Grants(k: Cluster, b: State, step: Step, ip: string, t: nat) {
    && step.RequestCommit? && Enabled(k, b, step) && Next(b, step).obj != b.obj
    && var q := b.requests[step.r];
    && q.at == t && Allocate(q.obj.children, q.obj.status, q.child, q.pool, q.at).0 == Granted(ip)
  }

  /** Over any run, a reservation stays in the status until a pod with its address is listed or 34
      seconds have passed since its stamp was taken, whatever refreshes, requests and edits do; and
      an admitted worker that is not listed yet is reserved. */
  lemma ReservationStays(k: Cluster, s: State, before: seq<Step>, step: Step, after: seq<Step>, ip: string, t: nat)
    requires k.Timely() && Initial(k, s) && Possible(k, s, before)
    requires Grants(k, Run(k, s, before), step, ip, t)
    requires Possible(k, Next(Run(k, s, before), step), after)
    ensures var e := Run(k, Next(Run(k, s, before), step), after);
      && (NeverSeen(k, Next(Run(k, s, before), step), after, ip) && e.now <= t + 34 * SECOND ==>
            ip in e.obj.status.pending)
      && (forall id :: id in e.workers && !e.workers[id].visible ==> ReservedFor(e.obj.status, e.workers[id]))
  {
    var b := Run(k, s, before);
    InitialInv(k, s);
    RunKeepsInv(k, s, before);
    RunStampsPast(k, s, before);
    StepKeepsInv(k, b, step);
    RunKeepsInv(k, Next(b, step), after);
    GrantHolds(k, b, step, ip, t);
    if NeverSeen(k, Next(b, step), after, ip) && Run(k, Next(b, step), after).now <= t + 34 * SECOND {
      RunHolds(k, Next(b, step), after, ip, t);
    }
  }

  lemma GrantHolds(k: Cluster, b: State, step: Step, ip: string, t: nat)
    requires Inv(k, b) && StampsPast(b) && Grants(k, b, step, ip, t)
    ensures Holds(Next(b, step), ip, t)
  {}

  /** A refresh that goes through leaves no reservation made more than 35 seconds before the clock it
      read. */
  lemma ReservationGoes(k: Cluster, s: State, before: seq<Step>, r: Refreshing, ip: string)
    requires k.Timely() && Initial(k, s) && Possible(k, s, before)
    requires Undergone(k, Run(k, s, before), r) && GoesThrough(k, Run(k, s, before), r)
    ensures var l := Run(k, s, before);
      var pending, now := Finished(k, l, r).obj.status.pending, Clocked(k, l, r).now;
      ip in pending ==>
        pending[ip].At? && forall t: nat :: pending[ip] == At(t / SECOND) ==> now <= t + 35 * SECOND
  {
    InitialInv(k, s);
    RunKeepsInv(k, s, before);
    RefreshCommits(k, Run(k, s, before), r);
  }
}

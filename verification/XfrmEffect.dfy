/** What executing the plan for one xfrm pod does: when it runs to its end, what it reaches, and
    how every action brings the pod closer. */
module XfrmEffect {
  import opened Api
  import opened Lists
  import opened Routes
  import opened XfrmPod

  // ---------------------------------------------------------------- running route actions

  predicate Removes(ops: seq<ListOp>) {
    exists op :: op in ops && op.Remove?
  }

  lemma {:induction false} RunLocals(p: Pod, name: string, ops: seq<ListOp>)
    ensures RunPod(Some(p), Locals(name, ops)) ==
      Done(Some(p.(addressed := p.addressed || ops != [], routes := p.routes.(local := RunList(p.routes.local, ops)))))
    decreases |ops|
  {
    if ops != [] {
      assert Locals(name, ops)[1..] == Locals(name, ops[1..]);
      RunLocals(p.(addressed := true, routes := p.routes.(local := Apply(p.routes.local, ops[0]))), name, ops[1..]);
    }
  }

  lemma {:induction false} RunRemotes(p: Pod, name: string, ops: seq<ListOp>, addressed: bool)
    ensures RunPod(Some(p), Remotes(name, ops, addressed)) ==
      if addressed && Removes(ops) then Abort
      else Done(Some(p.(addressed := p.addressed || ops != [],
                        routes := p.routes.(remote := RunList(p.routes.remote, ops)))))
    decreases |ops|
  {
    if ops != [] {
      assert Remotes(name, ops, addressed)[1..] == Remotes(name, ops[1..], addressed);
      assert Removes(ops) <==> ops[0].Remove? || Removes(ops[1..]);
      var q := p.(addressed := true, routes := p.routes.(remote := Apply(p.routes.remote, ops[0])));
      RunRemotes(q, name, ops[1..], addressed);
    }
  }

  lemma {:induction false} RunBridges(p: Pod, name: string, ops: seq<KeyOp>, addressed: bool)
    ensures RunPod(Some(p), Bridges(name, ops, addressed)) ==
      if !addressed && ops != [] then Abort
      else Done(Some(p.(routes := p.routes.(fdb := RunKeys(p.routes.fdb, ops)))))
    decreases |ops|
  {
    if ops != [] {
      assert Bridges(name, ops, addressed)[1..] == Bridges(name, ops[1..], addressed);
      RunBridges(p.(routes := p.routes.(fdb := ApplyKey(p.routes.fdb, ops[0]))), name, ops[1..], addressed);
    }
  }

  predicate Blocked(addressed: bool, ops: RouteOps) {
    (addressed && Removes(ops.remote)) || (!addressed && ops.fdb != [])
  }

  function RunRouteSet(routes: RouteSet, ops: RouteOps): RouteSet {
    RouteSet(RunList(routes.local, ops.local), RunList(routes.remote, ops.remote), RunKeys(routes.fdb, ops.fdb))
  }

  function Rewritten(p: Pod, ops: RouteOps): Pod {
    p.(addressed := p.addressed || ops.local != [] || ops.remote != [], routes := RunRouteSet(p.routes, ops))
  }

  /** Route actions planned for `q` and executed on `p`. */
  lemma RunRoutes(p: Pod, q: Pod, ops: RouteOps)
    ensures RunPod(Some(p), RouteActs(q, ops)) ==
      if Blocked(q.addressed, ops) then Abort else Done(Some(Rewritten(p, ops)))
  {
    var l, r, f := Locals(q.name, ops.local), Remotes(q.name, ops.remote, q.addressed), Bridges(q.name, ops.fdb, q.addressed);
    RunPodConcat(Some(p), l + r, f);
    RunPodConcat(Some(p), l, r);
    RunLocals(p, q.name, ops.local);
    var p1 := p.(addressed := p.addressed || ops.local != [], routes := p.routes.(local := RunList(p.routes.local, ops.local)));
    RunRemotes(p1, q.name, ops.remote, q.addressed);
    var p2 := p1.(addressed := p1.addressed || ops.remote != [],
                  routes := p1.routes.(remote := RunList(p1.routes.remote, ops.remote)));
    RunBridges(p2, q.name, ops.fdb, q.addressed);
  }

  // ---------------------------------------------------------------- what is reached

  predicate SameRoutes(a: RouteSet, b: RouteSet) {
    multiset(a.local) == multiset(b.local) && multiset(a.remote) == multiset(b.remote) && a.fdb == b.fdb
  }

  /** What is recorded is what is desired. */
  predicate Meets(o: Option<Pod>, x: Option<Pod>) {
    match (o, x)
    case (None, None) => true
    case (Some(p), Some(x)) =>
      p.name == x.name && p.props == x.props && p.node == x.node && SameRoutes(p.routes, x.routes)
    case _ => false
  }

  predicate LosesRemote(from: RouteSet, to: RouteSet) {
    exists v :: v in from.remote && multiset(from.remote)[v] > multiset(to.remote)[v]
  }

  lemma BlockedIff(addressed: bool, from: RouteSet, to: RouteSet, ops: RouteOps)
    requires Turns(ops, from, to)
    ensures Blocked(addressed, ops) <==> if addressed then LosesRemote(from, to) else from.fdb != to.fdb
  {
    LeadsEmptyIff(from.fdb, to.fdb, ops.fdb);
    if Removes(ops.remote) {
      var op :| op in ops.remote && op.Remove?;
      NeverBoth(ops.remote, from.remote, to.remote, op.route);
      assert op == Remove(op.route) && op.route in multiset(from.remote);
    }
    if LosesRemote(from, to) {
      var v :| v in from.remote && multiset(from.remote)[v] > multiset(to.remote)[v];
      NeverBoth(ops.remote, from.remote, to.remote, v);
      assert Remove(v).Remove?;
    }
  }

  /** When the plan for a pod runs to its end. */
  predicate Runnable(o: Option<Pod>, x: Option<Pod>) {
    match (o, x)
    case (None, Some(x)) => x.routes.fdb == map[]
    case (Some(p), Some(x)) =>
      !SameBox(p, x) || if p.addressed then !LosesRemote(p.routes, x.routes) else p.routes.fdb == x.routes.fdb
    case _ => true
  }

  /** No desired route is recorded more often than desired. */
  predicate CleanRoutes(from: RouteSet, to: RouteSet) {
    Clean(from.local, to.local) && Clean(from.remote, to.remote)
  }

  lemma RunRouteSetIff(from: RouteSet, to: RouteSet, ops: RouteOps)
    requires Turns(ops, from, to)
    ensures SameRoutes(RunRouteSet(from, ops), to) <==> CleanRoutes(from, to)
  {
    ReachedIff(from.local, to.local, ops.local);
    ReachedIff(from.remote, to.remote, ops.remote);
  }

  /** The hypotheses about one name: what is recorded and desired under it carries it, and a
      desired pod has no IP yet. */
  predicate Named(name: string, o: Option<Pod>, x: Option<Pod>) {
    (o.Some? ==> o.value.name == name) && (x.Some? ==> x.value.name == name && !x.value.addressed)
  }

  predicate Kept(o: Option<Pod>, x: Option<Pod>) {
    o.Some? && x.Some? && SameBox(o.value, x.value)
  }

  /** The plan for a pod runs to its end exactly when it need not give FDB entries to a pod whose
      IP was unknown, nor take a remote route from a pod whose IP was known. */
  lemma RunsIff(name: string, o: Option<Pod>, x: Option<Pod>, acts: seq<Action>)
    requires Named(name, o, x) && PodPlan(acts, name, o, x)
    ensures RunPod(o, acts).Done? <==> Runnable(o, x)
  {
    match (o, x) {
      case (None, Some(x)) =>
        var bare := x.(routes := NO_ROUTES);
        var ops :| Turns(ops, NO_ROUTES, x.routes) && acts[1..] == RouteActs(bare, ops);
        RunRoutes(bare.(addressed := true), bare, ops);
        BlockedIff(false, NO_ROUTES, x.routes, ops);
      case (Some(p), Some(x)) =>
        if SameBox(p, x) {
          var ops :| Turns(ops, p.routes, x.routes) && acts == RouteActs(p, ops);
          RunRoutes(p, p, ops);
          BlockedIff(p.addressed, p.routes, x.routes, ops);
        } else {
          RunReplace(p, x);
        }
      case (Some(p), None) => assert acts[1..] == [];
      case (None, None) =>
    }
  }

  lemma RunReplace(p: Pod, x: Pod)
    ensures RunPod(Some(p), [Delete(x.name), Create(x)]) == Done(Some(x.(addressed := true)))
  {
    var acts := [Delete(x.name), Create(x)];
    assert acts[1..] == [Create(x)];
    assert RunPod(None, [Create(x)]) == RunPod(Some(x.(addressed := true)), [Create(x)][1..]);
  }

  /** A plan that ran to its end has brought the pod to what is desired, exactly when no desired
      route of a kept pod was recorded more often than desired. */
  lemma ReachesIff(name: string, o: Option<Pod>, x: Option<Pod>, acts: seq<Action>)
    requires Named(name, o, x) && PodPlan(acts, name, o, x) && RunPod(o, acts).Done?
    ensures Meets(RunPod(o, acts).pod, x) <==> (Kept(o, x) ==> CleanRoutes(o.value.routes, x.value.routes))
  {
    match (o, x) {
      case (None, Some(x)) =>
        var bare := x.(routes := NO_ROUTES);
        var ops :| Turns(ops, NO_ROUTES, x.routes) && acts[1..] == RouteActs(bare, ops);
        RunRoutes(bare.(addressed := true), bare, ops);
        RunRouteSetIff(NO_ROUTES, x.routes, ops);
        assert CleanRoutes(NO_ROUTES, x.routes);
      case (Some(p), Some(x)) =>
        if SameBox(p, x) {
          var ops :| Turns(ops, p.routes, x.routes) && acts == RouteActs(p, ops);
          RunRoutes(p, p, ops);
          RunRouteSetIff(p.routes, x.routes, ops);
        } else {
          RunReplace(p, x);
        }
      case (Some(p), None) => assert acts[1..] == [];
      case (None, None) =>
    }
  }

  /** Nothing is planned exactly when there is nothing to do. */
  lemma NothingPlannedIff(name: string, o: Option<Pod>, x: Option<Pod>, acts: seq<Action>)
    requires Named(name, o, x) && PodPlan(acts, name, o, x)
    ensures acts == [] <==> Meets(o, x)
  {
    if Kept(o, x) {
      var p, x := o.value, x.value;
      var ops :| Turns(ops, p.routes, x.routes) && acts == RouteActs(p, ops);
      EmptyIff(p.routes.local, x.routes.local, ops.local);
      EmptyIff(p.routes.remote, x.routes.remote, ops.remote);
      LeadsEmptyIff(p.routes.fdb, x.routes.fdb, ops.fdb);
      assert |acts| == |ops.local| + |ops.remote| + |ops.fdb|;
    }
  }

  // ---------------------------------------------------------------- how far away

  function RouteGap(a: RouteSet, b: RouteSet): nat {
    Gap(a.local, b.local) + Gap(a.remote, b.remote) + KeyGap(a.fdb, b.fdb)
  }

  /** The number of actions still needed for a pod, counting a replacement as a removal followed
      by a creation route by route. */
  function Distance(o: Option<Pod>, x: Option<Pod>): nat {
    match (o, x)
    case (None, None) => 0
    case (Some(_), None) => 1
    case (None, Some(x)) => 1 + RouteGap(NO_ROUTES, x.routes)
    case (Some(p), Some(x)) =>
      if SameBox(p, x) then RouteGap(p.routes, x.routes) else 2 + RouteGap(NO_ROUTES, x.routes)
  }

  predicate TidyRoutes(r: RouteSet) {
    Distinct(r.local) && Distinct(r.remote)
  }

  predicate Tidy(o: Option<Pod>) {
    o.Some? ==> TidyRoutes(o.value.routes)
  }

  /** Part of a route plan. */
  function Part(ops: RouteOps, k: nat): RouteOps {
    var i := if k <= |ops.local| then k else |ops.local|;
    var j := if k <= |ops.local| then 0 else if k <= |ops.local| + |ops.remote| then k - |ops.local| else |ops.remote|;
    var m := if k <= |ops.local| + |ops.remote| then 0
             else if k <= |ops.local| + |ops.remote| + |ops.fdb| then k - |ops.local| - |ops.remote| else |ops.fdb|;
    RouteOps(ops.local[..i], ops.remote[..j], ops.fdb[..m])
  }

  lemma RouteActsPart(p: Pod, ops: RouteOps, k: nat)
    requires k <= |RouteActs(p, ops)|
    ensures RouteActs(p, ops)[..k] == RouteActs(p, Part(ops, k))
  {}

  /** After any part of a route plan exactly the rest of it is needed. */
  lemma PartCounts(from: RouteSet, to: RouteSet, ops: RouteOps, k: nat)
    requires Turns(ops, from, to) && TidyRoutes(from) && TidyRoutes(to)
    requires k <= |ops.local| + |ops.remote| + |ops.fdb|
    ensures RouteGap(RunRouteSet(from, Part(ops, k)), to) == |ops.local| + |ops.remote| + |ops.fdb| - k
    ensures TidyRoutes(RunRouteSet(from, Part(ops, k)))
  {
    var part := Part(ops, k);
    EachStepCounts(from.local, to.local, ops.local, |part.local|);
    EachStepCounts(from.remote, to.remote, ops.remote, |part.remote|);
    LeadsCounts(from.fdb, to.fdb, ops.fdb, |part.fdb|);
  }

  lemma KeptPart(p: Pod, q: Pod, x: Pod, acts: seq<Action>, k: nat)
    requires Rerouted(acts, q, x) && q.routes == p.routes && SameBox(p, x)
    requires TidyRoutes(p.routes) && TidyRoutes(x.routes)
    requires k <= |acts| && RunPod(Some(p), acts[..k]).Done?
    ensures var o := RunPod(Some(p), acts[..k]).pod;
      && Kept(o, Some(x)) && o.value.name == p.name && TidyRoutes(o.value.routes)
      && RouteGap(o.value.routes, x.routes) == |acts| - k
  {
    var ops :| Turns(ops, q.routes, x.routes) && acts == RouteActs(q, ops);
    RouteActsPart(q, ops, k);
    RunRoutes(p, q, Part(ops, k));
    PartCounts(p.routes, x.routes, ops, k);
  }

  /** Every executed action of the plan brings the pod closer to what is desired, leaves its
      route lists without duplicates, and keeps its name. */
  lemma StepCloser(name: string, o: Option<Pod>, x: Option<Pod>, acts: seq<Action>, k: nat)
    requires Named(name, o, x) && PodPlan(acts, name, o, x) && Tidy(o) && Tidy(x)
    requires k < |acts| && RunPod(o, acts[..k + 1]).Done?
    ensures RunPod(o, acts[..k]).Done?
    ensures Distance(RunPod(o, acts[..k + 1]).pod, x) < Distance(RunPod(o, acts[..k]).pod, x)
    ensures Tidy(RunPod(o, acts[..k + 1]).pod) && Named(name, RunPod(o, acts[..k + 1]).pod, x)
  {
    RunPodPrefix(o, acts, k);
    match (o, x)
    case (None, Some(x)) =>
      CreatedPart(x, acts, k);
      CreatedPart(x, acts, k + 1);
    case (Some(p), Some(x)) =>
      if SameBox(p, x) {
        KeptPart(p, p, x, acts, k);
        KeptPart(p, p, x, acts, k + 1);
      } else {
        ReplacedPart(p, x, acts, k);
      }
    case (Some(p), None) =>
      assert k == 0 && acts[..1] == [acts[0]] && acts[..0] == [];
    case (None, None) =>
  }

  lemma PrefixTidy(name: string, o: Option<Pod>, x: Option<Pod>, acts: seq<Action>, k: nat)
    requires Named(name, o, x) && PodPlan(acts, name, o, x) && Tidy(o) && Tidy(x)
    requires k <= |acts| && RunPod(o, acts[..k]).Done?
    ensures Tidy(RunPod(o, acts[..k]).pod) && Named(name, RunPod(o, acts[..k]).pod, x)
  {
    if k == 0 {
      assert acts[..0] == [];
    } else {
      StepCloser(name, o, x, acts, k - 1);
    }
  }

  lemma RunPodPrefix(o: Option<Pod>, acts: seq<Action>, k: nat)
    requires k < |acts| && RunPod(o, acts[..k + 1]).Done?
    ensures RunPod(o, acts[..k]).Done?
  {
    assert acts[..k + 1] == acts[..k] + [acts[k]];
    RunPodConcat(o, acts[..k], [acts[k]]);
  }

  lemma RunCreated(bare: Pod, acts: seq<Action>, k: nat)
    requires 0 < k <= |acts| && acts[0] == Create(bare)
    ensures RunPod(None, acts[..k]) == RunPod(Some(bare.(addressed := true)), acts[1..][..k - 1])
  {
    assert acts[..k][1..] == acts[1..][..k - 1];
  }

  lemma CreatedPart(x: Pod, acts: seq<Action>, k: nat)
    requires PodPlan(acts, x.name, None, Some(x)) && TidyRoutes(x.routes) && !x.addressed
    requires k <= |acts| && RunPod(None, acts[..k]).Done?
    ensures var o := RunPod(None, acts[..k]).pod;
      Distance(o, Some(x)) == |acts| - k && Tidy(o) && Named(x.name, o, Some(x))
  {
    var bare := x.(routes := NO_ROUTES);
    var up := bare.(addressed := true);
    if k == 0 {
      assert acts[..0] == [];
      var ops :| Turns(ops, NO_ROUTES, x.routes) && acts[1..] == RouteActs(bare, ops);
      PartCounts(NO_ROUTES, x.routes, ops, 0);
      assert RunRouteSet(NO_ROUTES, Part(ops, 0)) == NO_ROUTES;
    } else {
      RunCreated(bare, acts, k);
      KeptPart(up, bare, x, acts[1..], k - 1);
    }
  }

  lemma ReplacedPart(p: Pod, x: Pod, acts: seq<Action>, k: nat)
    requires acts == [Delete(x.name), Create(x)] && k < 2 && !SameBox(p, x) && TidyRoutes(x.routes)
    ensures RunPod(Some(p), acts[..k]).Done? && RunPod(Some(p), acts[..k + 1]).Done?
    ensures Distance(RunPod(Some(p), acts[..k + 1]).pod, Some(x)) < Distance(RunPod(Some(p), acts[..k]).pod, Some(x))
    ensures Tidy(RunPod(Some(p), acts[..k + 1]).pod)
    ensures !x.addressed ==> Named(x.name, RunPod(Some(p), acts[..k + 1]).pod, Some(x))
  {
    assert acts[..k] == if k == 0 then [] else [Delete(x.name)];
    assert acts[..k + 1] == if k == 0 then [Delete(x.name)] else acts;
    RunReplace(p, x);
    RunDelete(p, x.name);
    GapZero(x.routes.local, x.routes.local);
    GapZero(x.routes.remote, x.routes.remote);
  }

  lemma RunDelete(p: Pod, name: string)
    ensures RunPod(Some(p), [Delete(name)]) == Done(None)
  {}

  /** The action that comes next in a plan, executed so far, creates the pod if it is absent and
      otherwise does not. */
  lemma ActionFits(name: string, o: Option<Pod>, x: Option<Pod>, acts: seq<Action>, k: nat)
    requires Named(name, o, x) && PodPlan(acts, name, o, x)
    requires k < |acts| && RunPod(o, acts[..k]).Done?
    ensures acts[k].Create? <==> RunPod(o, acts[..k]).pod == None
  {
    if k == 0 {
      assert acts[..0] == [];
      if Kept(o, x) {
        KeepsPod(o.value, o.value, x.value, acts, 0);
      }
    } else {
      LaterFits(name, o, x, acts, k);
    }
  }

  lemma LaterFits(name: string, o: Option<Pod>, x: Option<Pod>, acts: seq<Action>, k: nat)
    requires Named(name, o, x) && PodPlan(acts, name, o, x)
    requires 0 < k < |acts| && RunPod(o, acts[..k]).Done?
    ensures acts[k].Create? <==> RunPod(o, acts[..k]).pod == None
  {
    if o == None {
      var bare := x.value.(routes := NO_ROUTES);
      RunCreated(bare, acts, k);
      KeepsPod(bare.(addressed := true), bare, x.value, acts[1..], k - 1);
    } else if Kept(o, x) {
      KeepsPod(o.value, o.value, x.value, acts, k);
    } else {
      assert acts[..1] == [Delete(name)];
      RunDelete(o.value, name);
    }
  }

  lemma KeepsPod(p: Pod, q: Pod, x: Pod, acts: seq<Action>, k: nat)
    requires Rerouted(acts, q, x) && k < |acts| && RunPod(Some(p), acts[..k]).Done?
    ensures RunPod(Some(p), acts[..k]).pod.Some? && !acts[k].Create?
  {
    var ops :| Turns(ops, q.routes, x.routes) && acts == RouteActs(q, ops);
    RouteActsPart(q, ops, k);
    RunRoutes(p, q, Part(ops, k));
    NeverCreates(q, ops, k);
  }

  lemma NeverCreates(p: Pod, ops: RouteOps, k: nat)
    requires k < |RouteActs(p, ops)|
    ensures !RouteActs(p, ops)[k].Create?
  {}

  // ---------------------------------------------------------------- nothing left to do

  lemma GapZeroIff(a: seq<string>, b: seq<string>)
    requires Distinct(a) && Distinct(b)
    ensures Gap(a, b) == 0 <==> multiset(a) == multiset(b)
  {
    if Gap(a, b) == 0 {
      DistinctCounts(a);
      DistinctCounts(b);
      assert Elements(a) - Elements(b) == {} && Elements(b) - Elements(a) == {};
      forall v ensures multiset(a)[v] == multiset(b)[v] {
        assert v in a <==> v in multiset(a);
        assert v in b <==> v in multiset(b);
        assert v in Elements(a) - Elements(b) <==> v in a && v !in b;
        assert v in Elements(b) - Elements(a) <==> v in b && v !in a;
      }
    } else if multiset(a) == multiset(b) {
      GapZero(a, b);
    }
  }

  lemma KeyGapZeroIff(a: FDB, b: FDB)
    ensures KeyGap(a, b) == 0 <==> a == b
  {
    if KeyGap(a, b) == 0 {
      assert Pairs(a) - Pairs(b) == {} && Pairs(b) - Pairs(a) == {};
      forall k | k in a ensures k in b && a[k] == b[k] {
        assert (k, a[k]) in Pairs(a) && (k, a[k]) !in Pairs(a) - Pairs(b);
      }
      forall k | k in b ensures k in a {
        assert (k, b[k]) in Pairs(b) && (k, b[k]) !in Pairs(b) - Pairs(a);
      }
    }
  }

  /** The distance is zero exactly when what is recorded is what is desired. */
  lemma DistanceZeroIff(name: string, o: Option<Pod>, x: Option<Pod>)
    requires Named(name, o, x) && Tidy(o) && Tidy(x)
    ensures Distance(o, x) == 0 <==> Meets(o, x)
  {
    if Kept(o, x) {
      GapZeroIff(o.value.routes.local, x.value.routes.local);
      GapZeroIff(o.value.routes.remote, x.value.routes.remote);
      KeyGapZeroIff(o.value.routes.fdb, x.value.routes.fdb);
    }
  }
}

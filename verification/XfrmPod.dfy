/** One xfrm pod: the actions planned for it, their effect on what is recorded of it, and how far
    it is from what is desired. */
module XfrmPod {
  import opened Api
  import opened Lists
  import opened Ordering
  import opened Routes

  datatype Props = Props(ownerChild: string, ownerConnection: string, interfaceId: int, xfrmIP: string, vxlanIP: string)
  datatype RouteSet = RouteSet(local: seq<string>, remote: seq<string>, fdb: FDB)

  /** An xfrm pod as desired or as recorded in the cluster; `addressed` when its IP is known. */
  datatype Pod = Pod(name: string, group: string, node: string, addressed: bool, props: Props, routes: RouteSet)

  const NO_ROUTES := RouteSet([], [], map[])

  /** Planned actions; route actions carry what was known of the pod's IP when they were planned. */
  datatype Action =
    | Create(pod: Pod)
    | Delete(name: string)
    | Local(name: string, lop: ListOp)
    | Remote(name: string, rop: ListOp, addressed: bool)
    | Bridge(name: string, bop: KeyOp, addressed: bool)

  function Target(a: Action): string {
    match a
    case Create(pod) => pod.name
    case Delete(name) => name
    case Local(name, _) => name
    case Remote(name, _, _) => name
    case Bridge(name, _, _) => name
  }

  // ---------------------------------------------------------------- executing actions

  datatype Outcome = Done(pod: Option<Pod>) | Abort

  /** The effect of an action on its pod. Creating needs the name free and everything else needs
      the pod; removing a remote route needs the pod to be looked up, which only happens when its
      IP was unknown, and bridge FDB actions need its IP to have been known. */
  function Do(o: Option<Pod>, a: Action): Outcome {
    match o
    case None => if a.Create? then Done(Some(a.pod.(addressed := true))) else Abort
    case Some(p) =>
      match a
      case Create(_) => Abort
      case Delete(_) => Done(None)
      case Local(_, op) => Done(Some(p.(addressed := true, routes := p.routes.(local := Apply(p.routes.local, op)))))
      case Remote(_, op, addressed) =>
        if op.Remove? && addressed then Abort
        else Done(Some(p.(addressed := true, routes := p.routes.(remote := Apply(p.routes.remote, op)))))
      case Bridge(_, op, addressed) =>
        if addressed then Done(Some(p.(routes := p.routes.(fdb := ApplyKey(p.routes.fdb, op))))) else Abort
  }

  function RunPod(o: Option<Pod>, acts: seq<Action>): Outcome
    decreases |acts|
  {
    if acts == [] then Done(o)
    else
      match Do(o, acts[0])
      case Abort => Abort
      case Done(after) => RunPod(after, acts[1..])
  }

  lemma {:induction false} RunPodConcat(o: Option<Pod>, first: seq<Action>, second: seq<Action>)
    ensures RunPod(o, first + second) ==
      match RunPod(o, first) case Abort => Abort case Done(mid) => RunPod(mid, second)
    decreases |first|
  {
    if first == [] {
      assert first + second == second;
    } else {
      assert (first + second)[1..] == first[1..] + second;
      match Do(o, first[0])
      case Abort =>
      case Done(after) => RunPodConcat(after, first[1..], second);
    }
  }

  // ---------------------------------------------------------------- planning

  /** The pod need not be replaced. */
  predicate SameBox(p: Pod, x: Pod) {
    p.props == x.props && p.node == x.node
  }

  function Locals(name: string, ops: seq<ListOp>): seq<Action> {
    seq(|ops|, i requires 0 <= i < |ops| => Local(name, ops[i]))
  }

  function Remotes(name: string, ops: seq<ListOp>, addressed: bool): seq<Action> {
    seq(|ops|, i requires 0 <= i < |ops| => Remote(name, ops[i], addressed))
  }

  function Bridges(name: string, ops: seq<KeyOp>, addressed: bool): seq<Action> {
    seq(|ops|, i requires 0 <= i < |ops| => Bridge(name, ops[i], addressed))
  }

  /** Local, remote and FDB operations that turn the routes `from` into `to`. */
  datatype RouteOps = RouteOps(local: seq<ListOp>, remote: seq<ListOp>, fdb: seq<KeyOp>)

  ghost predicate Turns(ops: RouteOps, from: RouteSet, to: RouteSet) {
    && Transforms(ops.local, from.local, to.local)
    && Transforms(ops.remote, from.remote, to.remote)
    && Leads(ops.fdb, from.fdb, to.fdb)
  }

  function RouteActs(p: Pod, ops: RouteOps): seq<Action> {
    Locals(p.name, ops.local) + Remotes(p.name, ops.remote, p.addressed) + Bridges(p.name, ops.fdb, p.addressed)
  }

  ghost predicate Rerouted(acts: seq<Action>, p: Pod, x: Pod) {
    exists ops :: Turns(ops, p.routes, x.routes) && acts == RouteActs(p, ops)
  }

  /** A plan for one pod, given what is recorded and what is desired of it. */
  ghost predicate PodPlan(acts: seq<Action>, name: string, o: Option<Pod>, x: Option<Pod>) {
    match (o, x)
    case (None, None) => acts == []
    case (Some(_), None) => acts == [Delete(name)]
    case (None, Some(x)) =>
      var bare := x.(routes := NO_ROUTES);
      acts != [] && acts[0] == Create(bare) && Rerouted(acts[1..], bare, x)
    case (Some(p), Some(x)) =>
      if SameBox(p, x) then Rerouted(acts, p, x) else acts == [Delete(name), Create(x)]
  }

  lemma RouteActsTarget(p: Pod, ops: RouteOps)
    ensures forall a :: a in RouteActs(p, ops) ==> Target(a) == p.name
  {}

  /** `diffRoutes`. */
  method DiffRoutes(current: Pod, desired: Pod) returns (acts: seq<Action>)
    ensures Rerouted(acts, current, desired)
    ensures forall a :: a in acts ==> Target(a) == current.name
  {
    var l := DiffRouteList(current.routes.local, desired.routes.local);
    var r := DiffRouteList(current.routes.remote, desired.routes.remote);
    var f := DiffMaps(current.routes.fdb, desired.routes.fdb);
    acts := RouteActs(current, RouteOps(l, r, f));
    RouteActsTarget(current, RouteOps(l, r, f));
  }

  function Adds(list: seq<string>): seq<ListOp> {
    seq(|list|, i requires 0 <= i < |list| => Add(list[i]))
  }

  lemma AddsSnoc(list: seq<string>, i: nat)
    requires i < |list|
    ensures Adds(list[..i + 1]) == Adds(list[..i]) + [Add(list[i])]
  {}

  lemma {:induction false} AddsCount(list: seq<string>, v: string)
    ensures multiset(Adds(list))[Add(v)] == multiset(list)[v] && multiset(Adds(list))[Remove(v)] == 0
  {
    if list != [] {
      var n := |list| - 1;
      AddsCount(list[..n], v);
      AddsSnoc(list, n);
      assert list == list[..n] + [list[n]] && list[..n + 1] == list;
    }
  }

  lemma AddsTransform(list: seq<string>)
    ensures Transforms(Adds(list), [], list)
  {
    forall v ensures multiset(Adds(list))[Add(v)] == multiset(list)[v] && multiset(Adds(list))[Remove(v)] == 0 {
      AddsCount(list, v);
    }
    assert multiset(list) - multiset([]) == multiset(list) && |multiset(list)| == |list|;
  }

  lemma CreatePlan(x: Pod, ops: RouteOps, acts: seq<Action>)
    requires Turns(ops, NO_ROUTES, x.routes)
    requires acts == [Create(x.(routes := NO_ROUTES))] + RouteActs(x.(routes := NO_ROUTES), ops)
    ensures PodPlan(acts, x.name, None, Some(x))
    ensures forall a :: a in acts ==> Target(a) == x.name
  {}

  /** `createXfrmPod`: an empty pod, and then every route by itself. */
  method CreateXfrmPod(x: Pod) returns (acts: seq<Action>)
    ensures PodPlan(acts, x.name, None, Some(x))
    ensures forall a :: a in acts ==> Target(a) == x.name
  {
    var bare := x.(routes := NO_ROUTES);
    var l := AddLocals(x);
    var r := AddRemotes(x);
    var f := SetAll(x.routes.fdb);
    acts := [Create(bare)] + (l + r + Bridges(x.name, f, x.addressed));
    AddsTransform(x.routes.local);
    AddsTransform(x.routes.remote);
    CreatePlan(x, RouteOps(Adds(x.routes.local), Adds(x.routes.remote), f), acts);
  }

  method AddLocals(x: Pod) returns (acts: seq<Action>)
    ensures acts == Locals(x.name, Adds(x.routes.local))
  {
    acts := [];
    for i := 0 to |x.routes.local|
      invariant acts == Locals(x.name, Adds(x.routes.local[..i]))
    {
      AddsSnoc(x.routes.local, i);
      acts := acts + [Local(x.name, Add(x.routes.local[i]))];
    }
    assert x.routes.local[..|x.routes.local|] == x.routes.local;
  }

  method AddRemotes(x: Pod) returns (acts: seq<Action>)
    ensures acts == Remotes(x.name, Adds(x.routes.remote), x.addressed)
  {
    acts := [];
    for i := 0 to |x.routes.remote|
      invariant acts == Remotes(x.name, Adds(x.routes.remote[..i]), x.addressed)
    {
      AddsSnoc(x.routes.remote, i);
      acts := acts + [Remote(x.name, Add(x.routes.remote[i]), x.addressed)];
    }
    assert x.routes.remote[..|x.routes.remote|] == x.routes.remote;
  }

  // ---------------------------------------------------------------- a plan, told without its parts

  /** A pod that is recorded and desired is deleted and created anew exactly if its owner, its interface,
      its addresses or its node differ. */
  lemma RecreatedIff(acts: seq<Action>, name: string, p: Pod, x: Pod)
    requires PodPlan(acts, name, Some(p), Some(x))
    ensures acts == [Delete(name), Create(x)] <==>
      || p.props.ownerChild != x.props.ownerChild || p.props.ownerConnection != x.props.ownerConnection
      || p.props.interfaceId != x.props.interfaceId || p.props.xfrmIP != x.props.xfrmIP
      || p.props.vxlanIP != x.props.vxlanIP || p.node != x.node
  {
    if SameBox(p, x) && acts != [] {
      ReroutedIs(acts, p, x);
      assert acts[0] in acts;
    }
  }

  lemma {:induction false} LocalsCount(name: string, ops: seq<ListOp>, a: Action)
    ensures multiset(Locals(name, ops))[a] == if a.Local? && a.name == name then multiset(ops)[a.lop] else 0
  {
    if ops != [] {
      LocalsCount(name, ops[1..], a);
      assert Locals(name, ops) == [Local(name, ops[0])] + Locals(name, ops[1..]);
      assert ops == [ops[0]] + ops[1..];
    }
  }

  lemma {:induction false} RemotesCount(name: string, ops: seq<ListOp>, addressed: bool, a: Action)
    ensures multiset(Remotes(name, ops, addressed))[a] ==
      if a.Remote? && a.name == name && a.addressed == addressed then multiset(ops)[a.rop] else 0
  {
    if ops != [] {
      RemotesCount(name, ops[1..], addressed, a);
      assert Remotes(name, ops, addressed) == [Remote(name, ops[0], addressed)] + Remotes(name, ops[1..], addressed);
      assert ops == [ops[0]] + ops[1..];
    }
  }

  lemma NoBridgesIn(name: string, ops: RouteOps, p: Pod, a: Action)
    requires !a.Bridge?
    ensures multiset(Bridges(name, ops.fdb, p.addressed))[a] == 0
  {}

  lemma RouteActsCount(p: Pod, ops: RouteOps, a: Action)
    requires !a.Bridge?
    ensures multiset(RouteActs(p, ops))[a] ==
      multiset(Locals(p.name, ops.local))[a] + multiset(Remotes(p.name, ops.remote, p.addressed))[a]
  {
    NoBridgesIn(p.name, ops, p, a);
  }

  /** How many more there are. */
  function Excess(a: nat, b: nat): nat {
    if a > b then a - b else 0
  }

  /** The local and remote routes planned for: of every route as many removals as there are too many and
      as many additions as there are too few. */
  ghost predicate ListsPlanned(acts: seq<Action>, name: string, known: bool, from: RouteSet, to: RouteSet) {
    forall v ::
      && multiset(acts)[Local(name, Add(v))] == Excess(multiset(to.local)[v], multiset(from.local)[v])
      && multiset(acts)[Local(name, Remove(v))] == Excess(multiset(from.local)[v], multiset(to.local)[v])
      && multiset(acts)[Remote(name, Add(v), known)] == Excess(multiset(to.remote)[v], multiset(from.remote)[v])
      && multiset(acts)[Remote(name, Remove(v), known)] == Excess(multiset(from.remote)[v], multiset(to.remote)[v])
  }

  /** The FDB entries planned for: those that are there and not desired go, those that are desired and not
      there come. */
  ghost predicate EntriesPlanned(acts: seq<Action>, name: string, known: bool, from: FDB, to: FDB) {
    forall k, ip ::
      && (Bridge(name, Unset(k, ip), known) in acts <==> k in from && from[k] == ip && !(k in to && to[k] == ip))
      && (Bridge(name, Set(k, ip), known) in acts <==> k in to && to[k] == ip && !(k in from && from[k] == ip))
  }

  /** Nothing but route actions on the pod, planned for what was known of its IP. */
  ghost predicate OnlyRoutes(acts: seq<Action>, name: string, known: bool) {
    forall a :: a in acts ==>
      match a
      case Local(n, _) => n == name
      case Remote(n, _, addressed) => n == name && addressed == known
      case Bridge(n, _, addressed) => n == name && addressed == known
      case _ => false
  }

  /** Local routes first, then remote ones, then FDB entries. */
  ghost predicate InStages(acts: seq<Action>) {
    forall i, j :: 0 <= i < j < |acts| ==>
      (acts[j].Local? ==> acts[i].Local?) && (acts[j].Remote? ==> acts[i].Local? || acts[i].Remote?)
  }

  /** The plan for a pod that is kept: exactly the route actions that are needed. */
  lemma KeptPlanIs(acts: seq<Action>, p: Pod, x: Pod)
    requires PodPlan(acts, p.name, Some(p), Some(x)) && p.props == x.props && p.node == x.node
    ensures ListsPlanned(acts, p.name, p.addressed, p.routes, x.routes)
    ensures EntriesPlanned(acts, p.name, p.addressed, p.routes.fdb, x.routes.fdb)
    ensures OnlyRoutes(acts, p.name, p.addressed) && InStages(acts)
  {
    ReroutedIs(acts, p, x);
  }

  /** The plan for a new pod: its creation with no routes, and then all its routes. */
  lemma CreatedPlanIs(acts: seq<Action>, x: Pod)
    requires PodPlan(acts, x.name, None, Some(x))
    ensures acts != [] && acts[0] == Create(x.(routes := RouteSet([], [], map[])))
    ensures ListsPlanned(acts[1..], x.name, x.addressed, RouteSet([], [], map[]), x.routes)
    ensures EntriesPlanned(acts[1..], x.name, x.addressed, map[], x.routes.fdb)
    ensures OnlyRoutes(acts[1..], x.name, x.addressed) && InStages(acts[1..])
  {
    ReroutedIs(acts[1..], x.(routes := NO_ROUTES), x);
  }

  lemma ReroutedIs(acts: seq<Action>, p: Pod, x: Pod)
    requires Rerouted(acts, p, x)
    ensures ListsPlanned(acts, p.name, p.addressed, p.routes, x.routes)
    ensures EntriesPlanned(acts, p.name, p.addressed, p.routes.fdb, x.routes.fdb)
    ensures OnlyRoutes(acts, p.name, p.addressed) && InStages(acts)
  {
    var ops :| Turns(ops, p.routes, x.routes) && acts == RouteActs(p, ops);
    ListsAre(p, x.routes, ops);
    EntriesAre(p, x.routes, ops);
    RouteStages(p, ops);
  }

  lemma OpsCounted(p: Pod, ops: RouteOps, op: ListOp)
    ensures multiset(RouteActs(p, ops))[Local(p.name, op)] == multiset(ops.local)[op]
    ensures multiset(RouteActs(p, ops))[Remote(p.name, op, p.addressed)] == multiset(ops.remote)[op]
  {
    var l, r := Local(p.name, op), Remote(p.name, op, p.addressed);
    RouteActsCount(p, ops, l);
    RouteActsCount(p, ops, r);
    LocalsCount(p.name, ops.local, l);
    LocalsCount(p.name, ops.local, r);
    RemotesCount(p.name, ops.remote, p.addressed, l);
    RemotesCount(p.name, ops.remote, p.addressed, r);
  }

  lemma ListsAre(p: Pod, to: RouteSet, ops: RouteOps)
    requires Turns(ops, p.routes, to)
    ensures ListsPlanned(RouteActs(p, ops), p.name, p.addressed, p.routes, to)
  {
    forall v
      ensures multiset(ops.local)[Add(v)] == multiset(RouteActs(p, ops))[Local(p.name, Add(v))]
      ensures multiset(ops.local)[Remove(v)] == multiset(RouteActs(p, ops))[Local(p.name, Remove(v))]
      ensures multiset(ops.remote)[Add(v)] == multiset(RouteActs(p, ops))[Remote(p.name, Add(v), p.addressed)]
      ensures multiset(ops.remote)[Remove(v)] == multiset(RouteActs(p, ops))[Remote(p.name, Remove(v), p.addressed)]
    {
      OpsCounted(p, ops, Add(v));
      OpsCounted(p, ops, Remove(v));
    }
  }

  lemma EntriesAre(p: Pod, to: RouteSet, ops: RouteOps)
    requires Turns(ops, p.routes, to)
    ensures EntriesPlanned(RouteActs(p, ops), p.name, p.addressed, p.routes.fdb, to.fdb)
  {
    forall k, ip
      ensures Unset(k, ip) in ops.fdb <==> Bridge(p.name, Unset(k, ip), p.addressed) in RouteActs(p, ops)
      ensures Set(k, ip) in ops.fdb <==> Bridge(p.name, Set(k, ip), p.addressed) in RouteActs(p, ops)
      ensures Unset(k, ip) in ops.fdb <==> k in p.routes.fdb && p.routes.fdb[k] == ip && !(k in to.fdb && to.fdb[k] == ip)
      ensures Set(k, ip) in ops.fdb <==> k in to.fdb && to.fdb[k] == ip && !(k in p.routes.fdb && p.routes.fdb[k] == ip)
    {
      LeadsIs(ops.fdb, p.routes.fdb, to.fdb, k, ip);
      BridgeIn(p, ops, Unset(k, ip));
      BridgeIn(p, ops, Set(k, ip));
    }
  }

  lemma BridgeIn(p: Pod, ops: RouteOps, op: KeyOp)
    ensures Bridge(p.name, op, p.addressed) in RouteActs(p, ops) <==> op in ops.fdb
  {
    if op in ops.fdb {
      var i :| 0 <= i < |ops.fdb| && ops.fdb[i] == op;
      assert RouteActs(p, ops)[|ops.local| + |ops.remote| + i] == Bridge(p.name, op, p.addressed);
    }
  }

  lemma RouteStages(p: Pod, ops: RouteOps)
    ensures OnlyRoutes(RouteActs(p, ops), p.name, p.addressed) && InStages(RouteActs(p, ops))
  {}

  // ---------------------------------------------------------------- an action, told without its parts

  /** When an action succeeds: creating needs the name free and everything else needs the pod, a remote
      route cannot be removed once the IP is known, and an FDB entry not be touched before it is. */
  lemma DoneIff(o: Option<Pod>, a: Action)
    ensures Do(o, a).Done? <==>
      && (a.Create? <==> o.None?)
      && !(a.Remote? && a.rop.Remove? && a.addressed)
      && !(a.Bridge? && !a.addressed)
  {}

  /** What it leaves of the pod. */
  lemma DoneIs(o: Option<Pod>, a: Action)
    requires Do(o, a).Done?
    ensures a.Create? ==> Do(o, a).pod == Some(a.pod.(addressed := true))
    ensures a.Delete? ==> Do(o, a).pod == None
    ensures !a.Create? && !a.Delete? ==> o.Some? && Do(o, a).pod.Some?
    ensures !a.Create? && !a.Delete? ==>
      var p, q := o.value, Do(o, a).pod.value;
      q.name == p.name && q.group == p.group && q.node == p.node && q.props == p.props
    ensures a.Local? ==>
      var p, q := o.value, Do(o, a).pod.value;
      && q.addressed && q.routes.remote == p.routes.remote && q.routes.fdb == p.routes.fdb
      && AfterListOp(p.routes.local, a.lop, q.routes.local)
    ensures a.Remote? ==>
      var p, q := o.value, Do(o, a).pod.value;
      && q.addressed && q.routes.local == p.routes.local && q.routes.fdb == p.routes.fdb
      && AfterListOp(p.routes.remote, a.rop, q.routes.remote)
    ensures a.Bridge? ==>
      var p, q := o.value, Do(o, a).pod.value;
      && q.addressed == p.addressed && q.routes.local == p.routes.local && q.routes.remote == p.routes.remote
      && q.routes.fdb == match a.bop case Set(k, ip) => p.routes.fdb[k := ip] case Unset(k, _) => p.routes.fdb - {k}
  {
    if a.Local? {
      AfterApply(o.value.routes.local, a.lop);
    } else if a.Remote? {
      AfterApply(o.value.routes.remote, a.rop);
    }
  }

  /** One more of the route, or none any more, and the list sorted. */
  ghost predicate AfterListOp(before: seq<string>, op: ListOp, after: seq<string>) {
    && (forall v :: multiset(after)[v] ==
          match op
          case Add(r) => if v == r then multiset(before)[v] + 1 else multiset(before)[v]
          case Remove(r) => if v == r then 0 else multiset(before)[v])
    && forall i, j :: 0 <= i < j < |after| ==> !Below(after[j], after[i])
  }

  lemma AfterApply(list: seq<string>, op: ListOp)
    ensures AfterListOp(list, op, Apply(list, op))
  {
    forall v ensures multiset(Apply(list, op))[v] ==
        match op
        case Add(r) => if v == r then multiset(list)[v] + 1 else multiset(list)[v]
        case Remove(r) => if v == r then 0 else multiset(list)[v]
    {
      ApplyCount(list, op, v);
    }
    match op
    case Add(r) => SortAscending(list + [r]);
    case Remove(r) => SortAscending(Without(list, {r}));
  }
}

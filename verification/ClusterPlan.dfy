/** The plan for the whole cluster: `DiffStates` over the charon groups, also when a pod moves from
    one group to another. */
module ClusterPlan {
  import opened Api
  import opened Lists
  import opened Ordering
  import opened Routes
  import opened XfrmPod
  import opened XfrmPlan
  import opened XfrmEffect
  import opened XfrmRun
  import opened Cluster
  import Bookkeeping

  // ---------------------------------------------------------------- lists of groups

  function FindGroup(groups: seq<GroupState>, ref: string): Option<GroupState> {
    if groups == [] then None else if groups[0].ref == ref then Some(groups[0]) else FindGroup(groups[1..], ref)
  }

  lemma {:induction false} FindGroupIff(groups: seq<GroupState>, ref: string)
    ensures FindGroup(groups, ref).Some? <==> exists g :: g in groups && g.ref == ref
    ensures FindGroup(groups, ref).Some? ==> FindGroup(groups, ref).value in groups && FindGroup(groups, ref).value.ref == ref
  {
    if groups != [] {
      FindGroupIff(groups[1..], ref);
    }
  }

  ghost predicate UniqueRefs(groups: seq<GroupState>) {
    forall i, j :: 0 <= i < j < |groups| ==> groups[i].ref != groups[j].ref
  }

  lemma RefsTell(groups: seq<GroupState>, g: GroupState, h: GroupState)
    requires UniqueRefs(groups) && g in groups && h in groups && g.ref == h.ref
    ensures g == h
  {}

  lemma FoundIs(groups: seq<GroupState>, g: GroupState)
    requires UniqueRefs(groups) && g in groups
    ensures FindGroup(groups, g.ref) == Some(g)
  {}

  /** The recorded pods of the groups there are. */
  function AllPods(groups: seq<GroupState>): seq<Pod> {
    if groups == [] then [] else GroupPods(groups[0]) + AllPods(groups[1..])
  }

  lemma {:induction false} AllPodsIff(groups: seq<GroupState>, p: Pod)
    ensures p in AllPods(groups) <==> exists g :: g in groups && p in GroupPods(g)
  {
    if groups != [] {
      AllPodsIff(groups[1..], p);
    }
  }

  /** The groups that are in both states; others wait for a later pass or are removed. */
  function Shared(groups: seq<GroupState>, other: seq<GroupState>): seq<GroupState> {
    if groups == [] then []
    else (if FindGroup(other, groups[0].ref).Some? then [groups[0]] else []) + Shared(groups[1..], other)
  }

  lemma {:induction false} SharedIff(groups: seq<GroupState>, other: seq<GroupState>, d: GroupState)
    ensures d in Shared(groups, other) <==> d in groups && FindGroup(other, d.ref).Some?
  {
    if groups != [] {
      SharedIff(groups[1..], other, d);
    }
  }

  function Goal(desired: seq<GroupState>, current: seq<GroupState>): seq<Pod> {
    AllPods(Shared(desired, current))
  }

  /** What is desired of the pods of a current group. */
  function GoalOf(desired: seq<GroupState>, c: GroupState): seq<Pod> {
    match FindGroup(desired, c.ref) case Some(d) => GroupPods(d) case None => []
  }

  // ---------------------------------------------------------------- the order of the groups

  /** The current groups in the order the plan deals with them: first the shared ones, as desired
      lists them, and then the others. */
  function Counterparts(groups: seq<GroupState>, other: seq<GroupState>): seq<GroupState> {
    if groups == [] then []
    else
      var n := |groups| - 1;
      Counterparts(groups[..n], other) +
        (match FindGroup(other, groups[n].ref) case Some(c) => [c] case None => [])
  }

  function Gone(groups: seq<GroupState>, desired: seq<GroupState>): seq<GroupState> {
    if groups == [] then []
    else
      var n := |groups| - 1;
      Gone(groups[..n], desired) + (if FindGroup(desired, groups[n].ref).None? then [groups[n]] else [])
  }

  function Order(desired: seq<GroupState>, current: seq<GroupState>): seq<GroupState> {
    Counterparts(desired, current) + Gone(current, desired)
  }

  /** Where a group stands among the desired ones; at the end if it is not desired. */
  function Position(groups: seq<GroupState>, ref: string): (i: nat)
    ensures i <= |groups| && (i < |groups| <==> FindGroup(groups, ref).Some?)
    ensures i < |groups| ==> groups[i].ref == ref
  {
    if groups == [] then 0 else if groups[0].ref == ref then 0 else 1 + Position(groups[1..], ref)
  }

  lemma PositionAt(groups: seq<GroupState>, i: nat)
    requires UniqueRefs(groups) && i < |groups|
    ensures Position(groups, groups[i].ref) == i
  {
    FindGroupIff(groups, groups[i].ref);
    assert groups[i] in groups;
    var j := Position(groups, groups[i].ref);
    assert groups[j].ref == groups[i].ref;
  }

  lemma {:induction false} CounterpartsIff(desired: seq<GroupState>, current: seq<GroupState>, c: GroupState)
    requires UniqueRefs(current)
    ensures c in Counterparts(desired, current) <==> c in current && exists d :: d in desired && d.ref == c.ref
  {
    if desired != [] {
      var n := |desired| - 1;
      CounterpartsIff(desired[..n], current, c);
      FindGroupIff(current, desired[n].ref);
      assert desired == desired[..n] + [desired[n]];
      if c in current && desired[n].ref == c.ref {
        RefsTell(current, c, FindGroup(current, c.ref).value);
      }
    }
  }

  lemma {:induction false} GoneIff(groups: seq<GroupState>, desired: seq<GroupState>, c: GroupState)
    ensures c in Gone(groups, desired) <==> c in groups && FindGroup(desired, c.ref).None?
  {
    if groups != [] {
      var n := |groups| - 1;
      GoneIff(groups[..n], desired, c);
      assert groups == groups[..n] + [groups[n]];
    }
  }

  lemma OrderIff(desired: seq<GroupState>, current: seq<GroupState>, c: GroupState)
    requires UniqueRefs(current)
    ensures c in Order(desired, current) <==> c in current
  {
    CounterpartsIff(desired, current, c);
    GoneIff(current, desired, c);
    FindGroupIff(desired, c.ref);
  }

  ghost predicate Ascending(desired: seq<GroupState>, cs: seq<GroupState>) {
    forall i, j :: 0 <= i < j < |cs| ==> Position(desired, cs[i].ref) < Position(desired, cs[j].ref)
  }

  /** The counterparts stand in the order of the desired groups. */
  lemma {:induction false} CounterpartsAscend(desired: seq<GroupState>, current: seq<GroupState>, n: nat)
    requires UniqueRefs(desired) && n <= |desired|
    ensures forall c :: c in Counterparts(desired[..n], current) ==> Position(desired, c.ref) < n
    ensures Ascending(desired, Counterparts(desired[..n], current))
  {
    if n > 0 {
      CounterpartsAscend(desired, current, n - 1);
      PositionAt(desired, n - 1);
      FindGroupIff(current, desired[n - 1].ref);
      var before, cs := Counterparts(desired[..n - 1], current), Counterparts(desired[..n], current);
      assert desired[..n][..n - 1] == desired[..n - 1];
      forall i, j | 0 <= i < j < |cs| ensures Position(desired, cs[i].ref) < Position(desired, cs[j].ref) {
        assert cs[i] == before[i] && before[i] in before;
        if j < |before| {
          assert cs[j] == before[j];
        }
      }
    }
  }

  lemma {:induction false} GoneUnique(groups: seq<GroupState>, desired: seq<GroupState>)
    requires UniqueRefs(groups)
    ensures UniqueRefs(Gone(groups, desired)) && forall c :: c in Gone(groups, desired) ==> FindGroup(desired, c.ref).None?
  {
    if groups != [] {
      var n := |groups| - 1;
      GoneUnique(groups[..n], desired);
      var before := Gone(groups[..n], desired);
      forall i | 0 <= i < |before| ensures before[i].ref != groups[n].ref {
        GoneIff(groups[..n], desired, before[i]);
      }
    }
  }

  /** In the order of the plan, a shared group comes before another exactly when it does so among the
      desired groups, and every group that is not desired comes after all that are. */
  lemma OrderAscends(desired: seq<GroupState>, current: seq<GroupState>, i: nat, j: nat)
    requires UniqueRefs(desired) && UniqueRefs(current) && i < j < |Order(desired, current)|
    ensures var a, b := Order(desired, current)[i].ref, Order(desired, current)[j].ref;
      a != b && (Position(desired, a) < Position(desired, b) || (FindGroup(desired, a).None? && FindGroup(desired, b).None?))
  {
    var cs, gs := Counterparts(desired, current), Gone(current, desired);
    assert desired[..|desired|] == desired;
    CounterpartsAscend(desired, current, |desired|);
    GoneUnique(current, desired);
    var c, d := Order(desired, current)[i], Order(desired, current)[j];
    if j < |cs| {
      assert c == cs[i] && d == cs[j];
    } else {
      assert d == gs[j - |cs|] && d in gs;
      if i < |cs| {
        assert c == cs[i] && c in cs;
      } else {
        assert c == gs[i - |cs|] && c in gs;
      }
    }
  }

  // ---------------------------------------------------------------- planning

  ghost predicate Prepared(desired: seq<GroupState>, current: seq<GroupState>) {
    && UniqueRefs(desired) && UniqueRefs(current)
    && UniqueNames(desired) && UniqueNames(current) && RolesApart(desired + current)
    && (forall g :: g in desired ==> WellFormed(g) && StrictlyAscending(Names(g.xfrms)))
    && (forall g :: g in current ==> WellFormed(g))
  }

  /** The pod actions of a plan are, group after group, plans for the pods of the groups. */
  ghost predicate Staged(acts: seq<Action>, desired: seq<GroupState>, cs: seq<GroupState>)
    decreases |cs|
  {
    if cs == [] then acts == []
    else
      var n := |cs| - 1;
      exists k :: 0 <= k <= |acts| && Staged(acts[..k], desired, cs[..n])
        && IsPlan(acts[k..], GroupPods(cs[n]), GoalOf(desired, cs[n]))
  }

  lemma StagedMore(acts: seq<Action>, desired: seq<GroupState>, cs: seq<GroupState>, more: seq<Action>, c: GroupState)
    requires Staged(acts, desired, cs) && IsPlan(more, GroupPods(c), GoalOf(desired, c))
    ensures Staged(acts + more, desired, cs + [c])
  {
    var all, k := acts + more, |acts|;
    assert (cs + [c])[..|cs|] == cs;
    assert all[..k] == acts && all[k..] == more;
  }

  function KeptProxies(desired: seq<GroupState>, current: seq<GroupState>): set<string> {
    set c | c in current && FindGroup(desired, c.ref).Some? && KeptProxy(FindGroup(desired, c.ref).value.proxy, c.proxy) != {} ::
      c.proxy.value.name
  }

  /** A plan for the groups `cs`: creating a desired restctl pod is followed by loading its
      configuration, and nothing is loaded into a pod that is not there. */
  ghost predicate PlanFrom(acts: seq<ClusterAction>, desired: seq<GroupState>, current: seq<GroupState>,
                           cs: seq<GroupState>) {
    && Staged(Pods(acts), desired, cs)
    && Followed(acts, ProxyNames(desired)) && Grounded(acts, KeptProxies(desired, current))
  }

  lemma PairApart(groups: seq<GroupState>, d: GroupState, c: GroupState)
    requires RolesApart(groups) && d in groups && c in groups
    ensures RolesApart([d, c]) && RolesApart([c])
  {}

  /** `deleteNode`. */
  method DeleteNode(g: GroupState) returns (acts: seq<Action>)
    requires WellFormed(g) && RolesApart([g])
    ensures IsPlan(acts, GroupPods(g), [])
    ensures forall a :: a in acts ==> !a.Create?
  {
    acts := (if g.charon.Some? then [Delete(g.charon.value.name)] else []) +
            (if g.proxy.Some? then [Delete(g.proxy.value.name)] else []);
    ghost var boxes := acts;
    for i := 0 to |g.xfrms|
      invariant acts == boxes + Deletes(g.xfrms[..i])
    {
      assert g.xfrms[..i + 1] == g.xfrms[..i] + [g.xfrms[i]];
      acts := acts + [Delete(g.xfrms[i].name)];
    }
    assert g.xfrms[..|g.xfrms|] == g.xfrms;
    DeleteNodeIsPlan(g);
  }

  function Deletes(ps: seq<Pod>): seq<Action> {
    seq(|ps|, i requires 0 <= i < |ps| => Delete(ps[i].name))
  }

  lemma {:induction false} DeletesIsPlan(ps: seq<Pod>)
    requires Distinct(Names(ps))
    ensures IsPlan(Deletes(ps), ps, [])
  {
    if ps == [] {
      SameIsPlan([]);
    } else {
      var n := |ps| - 1;
      assert Names(ps[..n]) == Names(ps)[..n];
      DeletesIsPlan(ps[..n]);
      ImmutableDelete(ps[n]);
      NamesNext(ps, n, ps[n].name);
      WantIff(ps[..n], ps[n].name);
      WantInNames(ps[..n], ps[n].name);
      JoinPlans(Deletes(ps[..n]), ps[..n], [], [Delete(ps[n].name)], [ps[n]], []);
      assert ps == ps[..n] + [ps[n]] && Deletes(ps) == Deletes(ps[..n]) + [Delete(ps[n].name)];
    }
  }

  lemma ImmutableDelete(p: Pod)
    ensures IsPlan([Delete(p.name)], [p], [])
  {}

  lemma DeleteNodeIsPlan(g: GroupState)
    requires WellFormed(g) && RolesApart([g])
    ensures IsPlan((if g.charon.Some? then [Delete(g.charon.value.name)] else []) +
                   (if g.proxy.Some? then [Delete(g.proxy.value.name)] else []) + Deletes(g.xfrms), GroupPods(g), [])
  {
    var empty := GroupState(g.ref, None, None, []);
    ImmutableIsPlan(None, g.charon);
    ImmutableIsPlan(None, g.proxy);
    DeletesIsPlan(g.xfrms);
    var ca, pa := Immutable(None, g.charon), Immutable(None, g.proxy);
    forall h, i, k, l, p, q | h in [empty, g] && i in [empty, g] && p in SlotPods(h, k) && q in SlotPods(i, l) && p.name == q.name
      ensures k == l
    {
      assert h == g && i == g && g in [g];
    }
    GroupPlan(empty, g, ca, pa, Deletes(g.xfrms));
    assert ca + (pa + Deletes(g.xfrms)) == (ca + pa) + Deletes(g.xfrms);
    assert GroupPods(empty) == [];
  }

  /** `DiffStates`, as far as pods and restctl configurations are concerned. */
  method DiffStates(r: Bookkeeping.Reconciler, desired: seq<GroupState>, current: seq<GroupState>, conns: seq<Conn>,
                    loaded: map<string, seq<string>>) returns (plan: Planned)
    requires Distinct(r.allConns) && "" !in r.allConns && "" !in AllNames(conns)
    requires Prepared(desired, current)
    modifies r
    ensures plan.Failed? ==> exists g :: g in desired && g.ref !in loaded
    ensures plan.Plan? ==> PlanFrom(plan.acts, desired, current, Order(desired, current))
    ensures plan.Plan? ==> OwnConfigs(plan.acts, conns, desired)
  {
    plan := DiffShared(r, desired, current, conns, loaded);
    if plan.Plan? {
      var acts := DeleteGone(desired, current, plan.acts, conns);
      plan := Plan(acts);
    }
  }

  /** The loop over the desired groups. */
  method DiffShared(r: Bookkeeping.Reconciler, desired: seq<GroupState>, current: seq<GroupState>, conns: seq<Conn>,
                    loaded: map<string, seq<string>>) returns (plan: Planned)
    requires Distinct(r.allConns) && "" !in r.allConns && "" !in AllNames(conns)
    requires Prepared(desired, current)
    modifies r
    ensures plan.Failed? ==> exists g :: g in desired && g.ref !in loaded
    ensures plan.Plan? ==> PlanFrom(plan.acts, desired, current, Counterparts(desired, current))
    ensures plan.Plan? ==> OwnConfigs(plan.acts, conns, desired)
  {
    var acts := [];
    for i := 0 to |desired|
      invariant Distinct(r.allConns) && "" !in r.allConns
      invariant PlanFrom(acts, desired, current, Counterparts(desired[..i], current))
      invariant OwnConfigs(acts, conns, desired)
    {
      var d := desired[i];
      var c := FindGroup(current, d.ref);
      if c.Some? {
        SharedPrepared(desired, current, d, c.value);
        ProxiesElsewhere(desired, current, d, c.value);
        var more := DiffGroup(r, d, c.value, conns, if d.ref in loaded then Some(loaded[d.ref]) else None);
        if more.Failed? {
          return Failed;
        }
        NextShared(desired, current, i, c.value, acts, more.acts);
        ConfigsConcat(acts, more.acts, conns, desired, d);
        acts := acts + more.acts;
      } else {
        NotShared(desired, current, i);
      }
    }
    assert desired[..|desired|] == desired;
    plan := Plan(acts);
  }

  lemma ConfigsConcat(acts: seq<ClusterAction>, more: seq<ClusterAction>, conns: seq<Conn>, groups: seq<GroupState>,
                      d: GroupState)
    requires OwnConfigs(acts, conns, groups) && OwnConfigs(more, conns, [d]) && d in groups
    ensures OwnConfigs(acts + more, conns, groups)
  {}

  lemma NotShared(desired: seq<GroupState>, current: seq<GroupState>, i: nat)
    requires i < |desired| && FindGroup(current, desired[i].ref).None?
    ensures Counterparts(desired[..i + 1], current) == Counterparts(desired[..i], current)
  {
    assert desired[..i + 1][..i] == desired[..i];
  }

  lemma SharedPrepared(desired: seq<GroupState>, current: seq<GroupState>, d: GroupState, c: GroupState)
    requires Prepared(desired, current) && d in desired && FindGroup(current, d.ref) == Some(c)
    ensures c in current && WellFormed(d) && WellFormed(c) && RolesApart([d, c]) && d.ref == c.ref
    ensures StrictlyAscending(Names(d.xfrms)) && FindGroup(desired, c.ref) == Some(d)
  {
    FindGroupIff(current, d.ref);
    FoundIs(desired, d);
    PairApart(desired + current, d, c);
  }

  lemma KeptShared(desired: seq<GroupState>, current: seq<GroupState>, d: GroupState, c: GroupState)
    requires c in current && FindGroup(desired, c.ref) == Some(d)
    ensures KeptProxy(d.proxy, c.proxy) <= KeptProxies(desired, current)
  {}

  lemma ProxiesElsewhere(desired: seq<GroupState>, current: seq<GroupState>, d: GroupState, c: GroupState)
    requires RolesApart(desired + current) && d in desired && c in current
    ensures ProxyNames(desired) !! NameSet(Opt(d.charon)) + NameSet(Opt(c.charon)) + NameSet(c.xfrms) + NameSet(d.xfrms)
  {
    NotProxies(desired + current, desired, d, CharonSlot);
    NotProxies(desired + current, desired, c, CharonSlot);
    NotProxies(desired + current, desired, d, XfrmSlot);
    NotProxies(desired + current, desired, c, XfrmSlot);
  }

  lemma NextShared(desired: seq<GroupState>, current: seq<GroupState>, i: nat, c: GroupState,
                   acts: seq<ClusterAction>, more: seq<ClusterAction>)
    requires Prepared(desired, current) && i < |desired| && FindGroup(current, desired[i].ref) == Some(c)
    requires PlanFrom(acts, desired, current, Counterparts(desired[..i], current))
    requires IsPlan(Pods(more), GroupPods(c), GroupPods(desired[i]))
    requires Followed(more, ProxyNames(desired)) && Grounded(more, KeptProxy(desired[i].proxy, c.proxy))
    ensures PlanFrom(acts + more, desired, current, Counterparts(desired[..i + 1], current))
  {
    assert desired[..i + 1][..i] == desired[..i];
    SharedPrepared(desired, current, desired[i], c);
    KeptShared(desired, current, desired[i], c);
    OneGroupMore(acts, desired, current, Counterparts(desired[..i], current), more, c);
  }

  lemma OneGroupMore(acts: seq<ClusterAction>, desired: seq<GroupState>, current: seq<GroupState>, cs: seq<GroupState>,
                     more: seq<ClusterAction>, c: GroupState)
    requires PlanFrom(acts, desired, current, cs) && IsPlan(Pods(more), GroupPods(c), GoalOf(desired, c))
    requires Followed(more, ProxyNames(desired)) && Grounded(more, KeptProxies(desired, current))
    ensures PlanFrom(acts + more, desired, current, cs + [c])
  {
    StagedMore(Pods(acts), desired, cs, Pods(more), c);
    PodsConcat(acts, more);
    FollowedConcat(acts, more, ProxyNames(desired));
    GroundedConcat(acts, more, KeptProxies(desired, current));
  }

  /** The loop over the current groups that are no longer desired. */
  method DeleteGone(desired: seq<GroupState>, current: seq<GroupState>, planned: seq<ClusterAction>, ghost conns: seq<Conn>)
      returns (acts: seq<ClusterAction>)
    requires Prepared(desired, current) && OwnConfigs(planned, conns, desired)
    requires PlanFrom(planned, desired, current, Counterparts(desired, current))
    ensures PlanFrom(acts, desired, current, Order(desired, current))
    ensures OwnConfigs(acts, conns, desired)
  {
    acts := planned;
    assert Counterparts(desired, current) + [] == Counterparts(desired, current);
    for j := 0 to |current|
      invariant PlanFrom(acts, desired, current, Counterparts(desired, current) + Gone(current[..j], desired))
      invariant OwnConfigs(acts, conns, desired)
    {
      var c := current[j];
      if FindGroup(desired, c.ref).None? {
        PairApart(desired + current, c, c);
        var deletions := DeleteNode(c);
        NextGone(desired, current, j, acts, deletions);
        ConfigsOnPods(acts, deletions, conns, desired);
        acts := acts + OnPods(deletions);
      } else {
        NotGone(desired, current, j);
      }
    }
    assert current[..|current|] == current;
  }

  lemma ConfigsOnPods(acts: seq<ClusterAction>, more: seq<Action>, conns: seq<Conn>, groups: seq<GroupState>)
    requires OwnConfigs(acts, conns, groups)
    ensures OwnConfigs(acts + OnPods(more), conns, groups)
  {}

  lemma NotGone(desired: seq<GroupState>, current: seq<GroupState>, j: nat)
    requires j < |current| && FindGroup(desired, current[j].ref).Some?
    ensures Gone(current[..j + 1], desired) == Gone(current[..j], desired)
  {
    assert current[..j + 1][..j] == current[..j];
  }

  lemma NextGone(desired: seq<GroupState>, current: seq<GroupState>, j: nat, acts: seq<ClusterAction>,
                 deletions: seq<Action>)
    requires j < |current| && FindGroup(desired, current[j].ref).None?
    requires PlanFrom(acts, desired, current, Counterparts(desired, current) + Gone(current[..j], desired))
    requires IsPlan(deletions, GroupPods(current[j]), []) && forall a :: a in deletions ==> !a.Create?
    ensures PlanFrom(acts + OnPods(deletions), desired, current, Counterparts(desired, current) + Gone(current[..j + 1], desired))
  {
    var cs, gs := Counterparts(desired, current), Gone(current[..j], desired);
    PodsOnPods(deletions);
    NoCreates(deletions, ProxyNames(desired));
    OneGroupMore(acts, desired, current, cs + gs, OnPods(deletions), current[j]);
    GoneNext(desired, current, j, cs);
  }

  lemma GoneNext(desired: seq<GroupState>, current: seq<GroupState>, j: nat, cs: seq<GroupState>)
    requires j < |current| && FindGroup(desired, current[j].ref).None?
    ensures cs + Gone(current[..j + 1], desired) == (cs + Gone(current[..j], desired)) + [current[j]]
  {
    assert current[..j + 1][..j] == current[..j];
  }

  lemma NoCreates(acts: seq<Action>, names: set<string>)
    requires forall a :: a in acts ==> !a.Create?
    ensures Followed(OnPods(acts), names)
  {}
}

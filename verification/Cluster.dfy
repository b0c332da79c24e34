/** The plan for the whole cluster: `DiffStates` over the charon groups. */
module Cluster {
  import opened Api
  import opened Lists
  import opened Ordering
  import opened Routes
  import opened XfrmPod
  import opened XfrmPlan
  import opened XfrmEffect
  import opened XfrmRun
  import Bookkeeping

  datatype GroupState = GroupState(ref: string, charon: Option<Pod>, proxy: Option<Pod>, xfrms: seq<Pod>)
  datatype ClusterAction = OnPod(action: Action) | Override(podName: string, configs: seq<string>)
  datatype Conn = Conn(name: string, group: string)

  const NO_PROPS := Props("", "", 0, "", "")

  /** Charon and restctl pods: replaced or left alone, without routes. */
  predicate Plain(p: Pod) {
    p.routes == NO_ROUTES && p.props == NO_PROPS
  }

  function Opt(o: Option<Pod>): seq<Pod> {
    match o case Some(p) => [p] case None => []
  }

  function GroupPods(g: GroupState): seq<Pod> {
    Opt(g.charon) + (Opt(g.proxy) + g.xfrms)
  }

  lemma GroupPodsIff(g: GroupState, p: Pod)
    ensures p in GroupPods(g) <==> g.charon == Some(p) || g.proxy == Some(p) || p in g.xfrms
  {}

  /** The pod is the charon pod, the restctl pod or one of the xfrm pods of the group. */
  predicate HasPod(g: GroupState, p: Pod) {
    g.charon == Some(p) || g.proxy == Some(p) || p in g.xfrms
  }

  /** The pod actions of a plan; overrides change nothing recorded. */
  function Pods(acts: seq<ClusterAction>): seq<Action> {
    if acts == [] then []
    else if acts[0].OnPod? then [acts[0].action] + Pods(acts[1..]) else Pods(acts[1..])
  }

  lemma {:induction false} PodsConcat(a: seq<ClusterAction>, b: seq<ClusterAction>)
    ensures Pods(a + b) == Pods(a) + Pods(b)
  {
    if a == [] {
      assert a + b == b;
    } else {
      assert (a + b)[1..] == a[1..] + b;
      PodsConcat(a[1..], b);
    }
  }

  function OnPods(acts: seq<Action>): seq<ClusterAction> {
    seq(|acts|, i requires 0 <= i < |acts| => OnPod(acts[i]))
  }

  lemma {:induction false} PodsOnPods(acts: seq<Action>)
    ensures Pods(OnPods(acts)) == acts
  {
    if acts != [] {
      assert OnPods(acts)[1..] == OnPods(acts[1..]);
      PodsOnPods(acts[1..]);
    }
  }

  // ---------------------------------------------------------------- joining plans

  lemma {:induction false} WantConcat(ps: seq<Pod>, qs: seq<Pod>, name: string)
    ensures Want(ps + qs, name) == if Want(ps, name).Some? then Want(ps, name) else Want(qs, name)
  {
    if ps == [] {
      assert ps + qs == qs;
    } else {
      assert (ps + qs)[1..] == ps[1..] + qs;
      WantConcat(ps[1..], qs, name);
    }
  }

  /** No pod name is on both sides. */
  ghost predicate Apart(a: set<string>, b: set<string>) {
    a !! b
  }

  function NameSet(ps: seq<Pod>): set<string> {
    set p | p in ps :: p.name
  }

  lemma WantInNames(ps: seq<Pod>, name: string)
    ensures Want(ps, name).Some? <==> name in NameSet(ps)
  {}

  /** Plans for pods with different names make up a plan for all of them. */
  lemma JoinPlans(a1: seq<Action>, c1: seq<Pod>, d1: seq<Pod>, a2: seq<Action>, c2: seq<Pod>, d2: seq<Pod>)
    requires IsPlan(a1, c1, d1) && IsPlan(a2, c2, d2)
    requires Apart(NameSet(c1) + NameSet(d1), NameSet(c2) + NameSet(d2))
    ensures IsPlan(a1 + a2, c1 + c2, d1 + d2)
  {
    forall name ensures PodPlan(Of(a1 + a2, name), name, Want(c1 + c2, name), Want(d1 + d2, name)) {
      OfConcat(a1, a2, name);
      WantConcat(c1, c2, name);
      WantConcat(d1, d2, name);
      WantInNames(c1, name);
      WantInNames(c2, name);
      WantInNames(d1, name);
      WantInNames(d2, name);
      if name in NameSet(c1) + NameSet(d1) {
        assert PodPlan(Of(a2, name), name, None, None);
        assert Of(a1, name) + [] == Of(a1, name);
      } else {
        assert PodPlan(Of(a1, name), name, None, None);
        assert [] + Of(a2, name) == Of(a2, name);
      }
    }
  }

  // ---------------------------------------------------------------- charon and restctl pods

  /** `comparePods`. */
  predicate SameMeta(a: Pod, b: Pod) {
    a.name == b.name && a.node == b.node
  }

  /** `diffImmutablePod`. */
  function Immutable(desired: Option<Pod>, current: Option<Pod>): seq<Action> {
    match (desired, current)
    case (None, None) => []
    case (None, Some(c)) => [Delete(c.name)]
    case (Some(d), None) => [Create(d)]
    case (Some(d), Some(c)) => if SameMeta(d, c) then [] else [Delete(c.name), Create(d)]
  }

  lemma OnlyPod(p: Pod, name: string)
    ensures Want([p], name) == if p.name == name then Some(p) else None
  {}

  lemma OnlyAction(a: Action, name: string)
    ensures Of([a], name) == if Target(a) == name then [a] else []
  {}

  lemma CreatePlain(x: Pod)
    requires Plain(x)
    ensures PodPlan([Create(x)], x.name, None, Some(x))
  {
    assert [Create(x)][1..] == [];
    assert x.(routes := NO_ROUTES) == x;
    NothingToDo(x, x);
  }

  lemma ReplacedIsPlan(d: Pod, c: Pod, name: string)
    requires Plain(d) && Plain(c) && !SameMeta(d, c)
    ensures PodPlan(Of([Delete(c.name), Create(d)], name), name, Want([c], name), Want([d], name))
  {
    OnlyPod(d, name);
    OnlyPod(c, name);
    OnlyAction(Delete(c.name), name);
    OnlyAction(Create(d), name);
    OfConcat([Delete(c.name)], [Create(d)], name);
    assert [Delete(c.name)] + [Create(d)] == [Delete(c.name), Create(d)];
    CreatePlain(d);
  }

  lemma ImmutableIsPlan(desired: Option<Pod>, current: Option<Pod>)
    requires (desired.Some? ==> Plain(desired.value)) && (current.Some? ==> Plain(current.value))
    ensures IsPlan(Immutable(desired, current), Opt(current), Opt(desired))
  {
    forall name
      ensures PodPlan(Of(Immutable(desired, current), name), name, Want(Opt(current), name), Want(Opt(desired), name))
    {
      match (desired, current)
      case (None, None) =>
      case (None, Some(c)) =>
        OnlyPod(c, name);
        OnlyAction(Delete(c.name), name);
      case (Some(d), None) =>
        OnlyPod(d, name);
        OnlyAction(Create(d), name);
        CreatePlain(d);
      case (Some(d), Some(c)) =>
        OnlyPod(d, name);
        OnlyPod(c, name);
        NothingToDo(c, d);
        if !SameMeta(d, c) {
          ReplacedIsPlan(d, c, name);
        }
    }
  }

  // ---------------------------------------------------------------- restctl pods

  function NamesIn(conns: seq<Conn>, group: string): seq<string> {
    if conns == [] then []
    else
      var n := |conns| - 1;
      NamesIn(conns[..n], group) + (if conns[n].group == group then [conns[n].name] else [])
  }

  /** `names` are the names of exactly the connections of the group, in the order they are listed. */
  ghost predicate OfGroupConns(names: seq<string>, conns: seq<Conn>, group: string) {
    exists at: seq<nat> :: Rising(at) && Hits(at, conns, group) && Reads(names, conns, at)
  }

  ghost predicate Hits(at: seq<nat>, conns: seq<Conn>, group: string) {
    forall j: nat :: j in at <==> j < |conns| && conns[j].group == group
  }

  ghost predicate Reads(names: seq<string>, conns: seq<Conn>, at: seq<nat>) {
    |names| == |at| && forall i :: 0 <= i < |at| ==> at[i] < |conns| && names[i] == conns[at[i]].name
  }

  lemma {:induction false} NamesInAt(conns: seq<Conn>, group: string) returns (at: seq<nat>)
    ensures Rising(at) && Hits(at, conns, group) && Reads(NamesIn(conns, group), conns, at)
  {
    at := [];
    if conns != [] {
      var n := |conns| - 1;
      var before := NamesInAt(conns[..n], group);
      assert conns == conns[..n] + [conns[n]];
      at := before + if conns[n].group == group then [n] else [];
    }
  }

  /** What a configuration override carries. */
  lemma NamesInIs(conns: seq<Conn>, group: string)
    ensures OfGroupConns(NamesIn(conns, group), conns, group)
  {
    var at := NamesInAt(conns, group);
  }

  /** Every configuration is loaded into this pod and is that of the connections of its group. */
  ghost predicate LoadsOnly(acts: seq<ClusterAction>, conns: seq<Conn>, pod: Option<Pod>) {
    forall a :: a in acts && a.Override? ==>
      pod.Some? && a.podName == pod.value.name && OfGroupConns(a.configs, conns, pod.value.group)
  }

  lemma LoadsOwn(acts: seq<Action>, conns: seq<Conn>, pod: Pod, name: string)
    requires name == pod.name
    ensures LoadsOnly(OnPods(acts) + [Override(name, NamesIn(conns, pod.group))], conns, Some(pod))
    ensures LoadsOnly([Override(name, NamesIn(conns, pod.group))], conns, Some(pod))
  {
    NamesInIs(conns, pod.group);
  }

  /** Every configuration loaded is that of the connections of the pod's own group. */
  ghost predicate OwnConfigs(acts: seq<ClusterAction>, conns: seq<Conn>, groups: seq<GroupState>) {
    forall a :: a in acts && a.Override? ==>
      exists d :: d in groups && d.proxy.Some? && d.proxy.value.name == a.podName
        && OfGroupConns(a.configs, conns, d.proxy.value.group)
  }

  function AllNames(conns: seq<Conn>): seq<string> {
    seq(|conns|, i requires 0 <= i < |conns| => conns[i].name)
  }

  datatype Planned = Plan(acts: seq<ClusterAction>) | Failed

  /** Creating one of these pods is always followed by loading its configuration. */
  ghost predicate Followed(acts: seq<ClusterAction>, names: set<string>) {
    forall i :: 0 <= i < |acts| && acts[i].OnPod? && acts[i].action.Create? && acts[i].action.pod.name in names ==>
      i + 1 < |acts| && acts[i + 1].Override? && acts[i + 1].podName == acts[i].action.pod.name
  }

  /** Every configuration is loaded into a pod just created or one that is kept. */
  ghost predicate Grounded(acts: seq<ClusterAction>, kept: set<string>) {
    forall i :: 0 <= i < |acts| && acts[i].Override? ==> acts[i].podName in kept || JustCreated(acts, i, acts[i].podName)
  }

  predicate JustCreated(acts: seq<ClusterAction>, i: nat, name: string)
    requires i < |acts|
  {
    i > 0 && acts[i - 1].OnPod? && acts[i - 1].action.Create? && acts[i - 1].action.pod.name == name
  }

  /** The restctl pod that stays as it is. */
  function KeptProxy(desired: Option<Pod>, current: Option<Pod>): set<string> {
    if desired.Some? && current.Some? && SameMeta(desired.value, current.value) then {current.value.name} else {}
  }

  /** A connection is newly missing from the daemon, or one too many is loaded. */
  ghost predicate Outdated(missing: set<string>, mine: seq<string>, loaded: seq<string>) {
    || (exists c :: c in mine && Bookkeeping.Triggers(missing, Elements(mine), Elements(loaded), c))
    || (exists l :: l in loaded && l !in mine)
  }

  /** `diffProxy`; `loaded` is what the running restctl pod answers, if it does. */
  method DiffProxy(r: Bookkeeping.Reconciler, desired: Option<Pod>, current: Option<Pod>, conns: seq<Conn>,
                   loaded: Option<seq<string>>) returns (plan: Planned)
    requires Distinct(r.allConns) && "" !in r.allConns && "" !in AllNames(conns)
    requires (desired.Some? ==> Plain(desired.value)) && (current.Some? ==> Plain(current.value))
    modifies r
    ensures Distinct(r.allConns) && "" !in r.allConns
    ensures plan.Failed? <==> desired.Some? && current.Some? && SameMeta(desired.value, current.value) && loaded.None?
    ensures plan.Plan? ==> IsPlan(Pods(plan.acts), Opt(current), Opt(desired))
    ensures plan.Plan? ==> forall names :: Followed(plan.acts, names)
    ensures plan.Plan? ==> Grounded(plan.acts, KeptProxy(desired, current))
    ensures desired.Some? && current.Some? && SameMeta(desired.value, current.value) && loaded.Some? ==>
      var mine, missing := NamesIn(conns, desired.value.group), Bookkeeping.Names(old(r.notLoaded));
      && Bookkeeping.Names(r.notLoaded) == Bookkeeping.Observed(missing, Elements(mine), Elements(loaded.value))
      && plan == Plan(if Outdated(missing, mine, loaded.value) then [Override(current.value.name, mine)] else [])
    ensures plan.Plan? ==> LoadsOnly(plan.acts, conns, desired)
  {
    ImmutableIsPlan(desired, current);
    var acts := Immutable(desired, current);
    if desired.None? || (current.None? && desired.None?) {
      PodsOnPods(acts);
      return Plan(OnPods(acts));
    }
    var mine := GroupNames(conns, desired.value.group);
    if current.None? || !SameMeta(desired.value, current.value) {
      Configured(desired.value, current, mine);
      LoadsOwn(acts, conns, desired.value, desired.value.name);
      return Plan(OnPods(acts) + [Override(desired.value.name, mine)]);
    }
    if loaded.None? {
      return Failed;
    }
    var outdated := CheckRestctl(r, conns, mine, loaded.value);
    LoadsOwn([], conns, desired.value, current.value.name);
    plan := Plan(if outdated then [Override(current.value.name, mine)] else []);
  }

  lemma Configured(desired: Pod, current: Option<Pod>, mine: seq<string>)
    requires current.Some? ==> !SameMeta(desired, current.value)
    ensures var acts := OnPods(Immutable(Some(desired), current)) + [Override(desired.name, mine)];
      && Pods(acts) == Immutable(Some(desired), current) && (forall names :: Followed(acts, names))
      && Grounded(acts, {})
  {
    var acts := Immutable(Some(desired), current);
    PodsConcat(OnPods(acts), [Override(desired.name, mine)]);
    PodsOnPods(acts);
    assert Pods([Override(desired.name, mine)]) == [] && acts + [] == acts;
  }

  method CheckRestctl(r: Bookkeeping.Reconciler, conns: seq<Conn>, mine: seq<string>, loaded: seq<string>)
      returns (outdated: bool)
    requires Distinct(r.allConns) && "" !in r.allConns && "" !in AllNames(conns)
    requires exists group :: mine == NamesIn(conns, group)
    modifies r
    ensures Distinct(r.allConns) && "" !in r.allConns
    ensures Bookkeeping.Names(r.notLoaded) ==
      Bookkeeping.Observed(Bookkeeping.Names(old(r.notLoaded)), Elements(mine), Elements(loaded))
    ensures outdated <==> Outdated(Bookkeeping.Names(old(r.notLoaded)), mine, loaded)
  {
    ghost var group :| mine == NamesIn(conns, group);
    r.TrackConns(AllNames(conns));
    NamesInNames(conns, group);
    outdated := r.CheckLoaded(mine, loaded);
  }

  method GroupNames(conns: seq<Conn>, group: string) returns (names: seq<string>)
    ensures names == NamesIn(conns, group)
  {
    names := [];
    for i := 0 to |conns|
      invariant names == NamesIn(conns[..i], group)
    {
      assert conns[..i + 1][..i] == conns[..i];
      if conns[i].group == group {
        names := names + [conns[i].name];
      }
    }
    assert conns[..|conns|] == conns;
  }

  lemma {:induction false} NamesInNames(conns: seq<Conn>, group: string)
    ensures forall n :: n in NamesIn(conns, group) ==> n in AllNames(conns)
  {
    if conns != [] {
      var n := |conns| - 1;
      NamesInNames(conns[..n], group);
      assert AllNames(conns) == AllNames(conns[..n]) + [conns[n].name];
    }
  }

  // ---------------------------------------------------------------- names

  datatype Slot = CharonSlot | ProxySlot | XfrmSlot

  function SlotPods(g: GroupState, slot: Slot): seq<Pod> {
    match slot
    case CharonSlot => Opt(g.charon)
    case ProxySlot => Opt(g.proxy)
    case XfrmSlot => g.xfrms
  }

  /** The name of a pod tells its role: its prefix does. */
  ghost predicate RolesApart(groups: seq<GroupState>) {
    forall g, h, k, l, p, q :: g in groups && h in groups && p in SlotPods(g, k) && q in SlotPods(h, l) && p.name == q.name ==>
      k == l
  }

  /** No name is used twice within one state. */
  ghost predicate UniqueNames(groups: seq<GroupState>) {
    forall g, h, p, q :: g in groups && h in groups && p in GroupPods(g) && q in GroupPods(h) && p.name == q.name ==>
      g.ref == h.ref && p == q
  }

  ghost predicate WellFormed(g: GroupState) {
    && (g.charon.Some? ==> Plain(g.charon.value)) && (g.proxy.Some? ==> Plain(g.proxy.value))
    && Distinct(Names(g.xfrms))
  }

  // ---------------------------------------------------------------- one group

  lemma SameIsPlan(ps: seq<Pod>)
    ensures IsPlan([], ps, ps)
  {
    forall name ensures PodPlan([], name, Want(ps, name), Want(ps, name)) {
      if Want(ps, name).Some? {
        NothingToDo(Want(ps, name).value, Want(ps, name).value);
      }
    }
  }

  /** A plan only has actions on the pods it is about. */
  lemma TargetsWithin(acts: seq<Action>, current: seq<Pod>, desired: seq<Pod>, a: Action)
    requires IsPlan(acts, current, desired) && a in acts
    ensures Target(a) in NameSet(current) + NameSet(desired)
  {
    var i :| 0 <= i < |acts| && acts[i] == a;
    assert acts == acts[..i] + acts[i..];
    OfConcat(acts[..i], acts[i..], Target(a));
    assert Of(acts, Target(a)) != [];
    WantInNames(current, Target(a));
    WantInNames(desired, Target(a));
  }

  /** Plans for the three roles make up the plan for a group. */
  lemma GroupPlan(d: GroupState, c: GroupState, ca: seq<Action>, pa: seq<Action>, xa: seq<Action>)
    requires RolesApart([d, c]) && d.ref == c.ref
    requires IsPlan(ca, Opt(c.charon), Opt(d.charon)) && IsPlan(pa, Opt(c.proxy), Opt(d.proxy))
    requires IsPlan(xa, c.xfrms, d.xfrms)
    ensures IsPlan(ca + (pa + xa), GroupPods(c), GroupPods(d))
  {
    SlotsApart(d, c, ProxySlot, XfrmSlot);
    RestApart(d, c);
    JoinPlans(pa, Opt(c.proxy), Opt(d.proxy), xa, c.xfrms, d.xfrms);
    JoinPlans(ca, Opt(c.charon), Opt(d.charon), pa + xa, Opt(c.proxy) + c.xfrms, Opt(d.proxy) + d.xfrms);
  }

  lemma RestApart(d: GroupState, c: GroupState)
    requires RolesApart([d, c])
    ensures Apart(NameSet(Opt(c.charon)) + NameSet(Opt(d.charon)),
                  NameSet(Opt(c.proxy) + c.xfrms) + NameSet(Opt(d.proxy) + d.xfrms))
  {
    SlotsApart(d, c, CharonSlot, ProxySlot);
    SlotsApart(d, c, CharonSlot, XfrmSlot);
    NameSetConcat(Opt(c.proxy), c.xfrms);
    NameSetConcat(Opt(d.proxy), d.xfrms);
    ApartFromBoth(NameSet(Opt(c.charon)) + NameSet(Opt(d.charon)),
                  NameSet(Opt(c.proxy)), NameSet(Opt(d.proxy)), NameSet(c.xfrms), NameSet(d.xfrms));
  }

  lemma ApartFromBoth(x: set<string>, p: set<string>, p': set<string>, q: set<string>, q': set<string>)
    requires Apart(x, p + p') && Apart(x, q + q')
    ensures Apart(x, (p + q) + (p' + q'))
  {}

  lemma SlotApart(groups: seq<GroupState>, g: GroupState, k: Slot, h: GroupState, l: Slot)
    requires RolesApart(groups) && g in groups && h in groups && k != l
    ensures NameSet(SlotPods(g, k)) !! NameSet(SlotPods(h, l))
  {}

  lemma SlotsApart(d: GroupState, c: GroupState, k: Slot, l: Slot)
    requires RolesApart([d, c]) && k != l
    ensures Apart(NameSet(SlotPods(c, k)) + NameSet(SlotPods(d, k)), NameSet(SlotPods(c, l)) + NameSet(SlotPods(d, l)))
  {
    SlotApart([d, c], c, k, c, l);
    SlotApart([d, c], c, k, d, l);
    SlotApart([d, c], d, k, c, l);
    SlotApart([d, c], d, k, d, l);
  }

  lemma NameSetConcat(ps: seq<Pod>, qs: seq<Pod>)
    ensures NameSet(ps + qs) == NameSet(ps) + NameSet(qs)
  {}

  /** Pod actions that concern none of the named pods need not be followed by anything. */
  lemma FollowedElsewhere(acts: seq<Action>, names: set<string>)
    requires forall a :: a in acts ==> Target(a) !in names
    ensures Followed(OnPods(acts), names)
  {
    forall i | 0 <= i < |acts| && acts[i].Create? ensures acts[i].pod.name !in names {
      assert acts[i] in acts;
    }
  }

  lemma GroundedConcat(a: seq<ClusterAction>, b: seq<ClusterAction>, kept: set<string>)
    requires Grounded(a, kept) && Grounded(b, kept)
    ensures Grounded(a + b, kept)
  {}

  lemma FollowedConcat(a: seq<ClusterAction>, b: seq<ClusterAction>, names: set<string>)
    requires Followed(a, names) && Followed(b, names)
    ensures Followed(a + b, names)
  {}

  function ProxyNames(groups: seq<GroupState>): set<string> {
    set g | g in groups && g.proxy.Some? :: g.proxy.value.name
  }

  lemma NotProxies(groups: seq<GroupState>, desired: seq<GroupState>, g: GroupState, slot: Slot)
    requires RolesApart(groups) && g in groups && slot != ProxySlot
    requires forall d :: d in desired ==> d in groups
    ensures NameSet(SlotPods(g, slot)) !! ProxyNames(desired)
  {
    forall name | name in NameSet(SlotPods(g, slot)) ensures name !in ProxyNames(desired) {
      var p :| p in SlotPods(g, slot) && p.name == name;
      if name in ProxyNames(desired) {
        var d :| d in desired && d.proxy.Some? && d.proxy.value.name == name;
        SlotApart(groups, g, slot, d, ProxySlot);
        assert false;
      }
    }
  }

  /** The body of the loop of `DiffStates` for a group in both states. */
  method DiffGroup(r: Bookkeeping.Reconciler, d: GroupState, c: GroupState, conns: seq<Conn>,
                   loaded: Option<seq<string>>)
      returns (plan: Planned)
    requires Distinct(r.allConns) && "" !in r.allConns && "" !in AllNames(conns)
    requires WellFormed(d) && WellFormed(c) && RolesApart([d, c]) && d.ref == c.ref
    requires StrictlyAscending(Names(d.xfrms))
    modifies r
    ensures Distinct(r.allConns) && "" !in r.allConns
    ensures plan.Plan? ==> IsPlan(Pods(plan.acts), GroupPods(c), GroupPods(d))
    ensures plan.Plan? ==> forall names ::
      names !! NameSet(Opt(d.charon)) + NameSet(Opt(c.charon)) + NameSet(c.xfrms) + NameSet(d.xfrms) ==> Followed(plan.acts, names)
    ensures plan.Plan? ==> Grounded(plan.acts, KeptProxy(d.proxy, c.proxy))
    ensures plan.Plan? ==> OwnConfigs(plan.acts, conns, [d])
    ensures plan.Failed? ==> loaded.None?
  {
    if d == c {
      SameIsPlan(GroupPods(c));
      return Plan([]);
    }
    var charon := Immutable(d.charon, c.charon);
    ImmutableIsPlan(d.charon, c.charon);
    if d.charon == c.charon {
      charon := [];
      SameIsPlan(Opt(c.charon));
    }
    var proxy := Plan([]);
    SameIsPlan(Opt(c.proxy));
    if d.proxy != c.proxy {
      proxy := DiffProxy(r, d.proxy, c.proxy, conns, loaded);
    }
    if proxy.Failed? {
      return Failed;
    }
    var xfrms := [];
    SameIsPlan(c.xfrms);
    if d.xfrms != c.xfrms {
      xfrms := DiffXfrms(d.xfrms, c.xfrms);
      SearchedPlan(xfrms, d.xfrms, c.xfrms);
    }
    plan := Plan(OnPods(charon) + (proxy.acts + OnPods(xfrms)));
    GroupLoads(d, charon, proxy.acts, xfrms, conns);
    AssembleGroup(d, c, charon, proxy.acts, xfrms);
  }

  lemma GroupLoads(d: GroupState, ca: seq<Action>, pa: seq<ClusterAction>, xa: seq<Action>, conns: seq<Conn>)
    requires LoadsOnly(pa, conns, d.proxy)
    ensures OwnConfigs(OnPods(ca) + (pa + OnPods(xa)), conns, [d])
  {
    assert d in [d];
  }

  lemma AssembleGroup(d: GroupState, c: GroupState, ca: seq<Action>, pa: seq<ClusterAction>, xa: seq<Action>)
    requires RolesApart([d, c]) && d.ref == c.ref
    requires IsPlan(ca, Opt(c.charon), Opt(d.charon)) && IsPlan(Pods(pa), Opt(c.proxy), Opt(d.proxy))
    requires IsPlan(xa, c.xfrms, d.xfrms)
    requires forall names :: Followed(pa, names)
    ensures var acts := OnPods(ca) + (pa + OnPods(xa));
      && IsPlan(Pods(acts), GroupPods(c), GroupPods(d))
      && forall names :: names !! NameSet(Opt(d.charon)) + NameSet(Opt(c.charon)) + NameSet(c.xfrms) + NameSet(d.xfrms) ==>
           Followed(acts, names)
    ensures forall kept :: Grounded(pa, kept) ==> Grounded(OnPods(ca) + (pa + OnPods(xa)), kept)
  {
    PodsConcat(OnPods(ca), pa + OnPods(xa));
    PodsConcat(pa, OnPods(xa));
    PodsOnPods(ca);
    PodsOnPods(xa);
    GroupPlan(d, c, ca, Pods(pa), xa);
    forall kept | Grounded(pa, kept) ensures Grounded(OnPods(ca) + (pa + OnPods(xa)), kept) {
      GroundedConcat(pa, OnPods(xa), kept);
      GroundedConcat(OnPods(ca), pa + OnPods(xa), kept);
    }
    forall names | names !! NameSet(Opt(d.charon)) + NameSet(Opt(c.charon)) + NameSet(c.xfrms) + NameSet(d.xfrms)
      ensures Followed(OnPods(ca) + (pa + OnPods(xa)), names)
    {
      forall a | a in ca ensures Target(a) !in names {
        TargetsWithin(ca, Opt(c.charon), Opt(d.charon), a);
      }
      forall a | a in xa ensures Target(a) !in names {
        TargetsWithin(xa, c.xfrms, d.xfrms, a);
      }
      FollowedElsewhere(ca, names);
      FollowedElsewhere(xa, names);
      FollowedConcat(pa, OnPods(xa), names);
      FollowedConcat(OnPods(ca), pa + OnPods(xa), names);
    }
  }
}

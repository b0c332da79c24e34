/** Repeated passes over the whole cluster: when they settle, also for pods that change groups, for
    pods of groups that are gone, and with IPs assigned in between. */
module ClusterPasses {
  import opened Api
  import opened Lists
  import opened Ordering
  import opened Routes
  import opened XfrmPod
  import opened XfrmPlan
  import opened XfrmEffect
  import opened XfrmRun
  import opened Cluster
  import opened ClusterPlan
  import opened ClusterRun
  import XfrmPasses
  import Bookkeeping

  // ---------------------------------------------------------------- what a pass is about

  /** Every pod of a group carries the group's name. */
  ghost predicate Tagged(groups: seq<GroupState>) {
    forall g, p :: g in groups && p in GroupPods(g) ==> p.group == g.ref
  }

  /** The state of the groups `refs` there are, with every recorded pod that carries their name. */
  ghost predicate View(current: seq<GroupState>, refs: set<string>, s: Recorded) {
    && Shown(current, s) && Tagged(current)
    && (forall ref :: FindGroup(current, ref).Some? <==> ref in refs)
    && (forall name :: name in s && s[name].group in refs ==> Want(AllPods(current), name).Some?)
  }

  /** What is desired as long as these groups are there. */
  function GoalFor(desired: seq<GroupState>, refs: set<string>): seq<Pod> {
    if desired == [] then []
    else (if desired[0].ref in refs then GroupPods(desired[0]) else []) + GoalFor(desired[1..], refs)
  }

  lemma {:induction false} GoalIs(desired: seq<GroupState>, current: seq<GroupState>, refs: set<string>)
    requires forall ref :: FindGroup(current, ref).Some? <==> ref in refs
    ensures Goal(desired, current) == GoalFor(desired, refs)
  {
    if desired != [] {
      GoalIs(desired[1..], current, refs);
      var d := desired[0];
      if d.ref in refs {
        assert ([d] + Shared(desired[1..], current))[1..] == Shared(desired[1..], current);
      } else {
        assert [] + Shared(desired[1..], current) == Shared(desired[1..], current);
      }
    }
  }

  // ---------------------------------------------------------------- one pod

  /** Recorded where it is desired, and not to be replaced. */
  predicate InPlace(o: Option<Pod>, x: Pod) {
    Kept(o, Some(x)) && o.value.group == x.group
  }

  predicate Moves(o: Option<Pod>, x: Option<Pod>) {
    o.Some? && x.Some? && o.value.group != x.value.group
  }

  /** Its creation is planned before its deletion: it moves against the order, or its group is gone. */
  predicate Misplaced(desired: seq<GroupState>, refs: set<string>, o: Option<Pod>, x: Option<Pod>) {
    Moves(o, x) &&
      !(o.value.group in refs && Position(desired, o.value.group) < Position(desired, x.value.group))
  }

  /** A remote route has to go, which works only as long as its IP is not known. */
  predicate Jammed(o: Option<Pod>, x: Option<Pod>) {
    x.Some? && InPlace(o, x.value) && LosesRemote(o.value.routes, x.value.routes)
  }

  predicate Hopeless(desired: seq<GroupState>, refs: set<string>, o: Option<Pod>, x: Option<Pod>) {
    Misplaced(desired, refs, o, x) || (Jammed(o, x) && o.value.addressed)
  }

  /** A desired pod with FDB entries that is still to be created in its place. */
  predicate Queued(o: Option<Pod>, x: Pod) {
    x.routes.fdb != map[] && !InPlace(o, x)
  }

  /** What is recorded is what is desired, in the group it is desired in; nothing is desired of pods
      whose group is gone. */
  predicate Reached(refs: set<string>, o: Option<Pod>, x: Option<Pod>) {
    if x.None? then o.Some? ==> o.value.group !in refs
    else Meets(o, x) && o.value.group == x.value.group
  }

  ghost predicate NamePlan(acts: seq<Action>, name: string, desired: seq<GroupState>, refs: set<string>,
                           o: Option<Pod>, x: Option<Pod>) {
    if Moves(o, x) then
      acts != [] && if Misplaced(desired, refs, o, x) then acts[0].Create?
                    else acts[0] == Delete(name) && PodPlan(acts[1..], name, None, x)
    else if o.Some? && o.value.group !in refs then x.None? ==> acts == []
    else PodPlan(acts, name, o, x)
  }

  /** Pods of a group only get created in that group. */
  lemma {:induction false} RunGroup(o: Option<Pod>, acts: seq<Action>, group: string)
    requires RunPod(o, acts).Done? && (o.Some? ==> o.value.group == group)
    requires forall a :: a in acts && a.Create? ==> a.pod.group == group
    ensures RunPod(o, acts).pod.Some? ==> RunPod(o, acts).pod.value.group == group
    decreases |acts|
  {
    if acts != [] {
      assert acts[0] in acts;
      RunGroup(Do(o, acts[0]).pod, acts[1..], group);
    }
  }

  lemma ReroutedCreates(acts: seq<Action>, p: Pod, x: Pod)
    requires Rerouted(acts, p, x)
    ensures forall a :: a in acts ==> !a.Create?
  {}

  lemma PlanCreates(acts: seq<Action>, name: string, o: Option<Pod>, x: Option<Pod>)
    requires PodPlan(acts, name, o, x)
    ensures forall a :: a in acts && a.Create? ==> x.Some? && a.pod.group == x.value.group
  {
    if x.Some? && o.None? {
      var bare := x.value.(routes := NO_ROUTES);
      ReroutedCreates(acts[1..], bare, x.value);
      assert acts == [acts[0]] + acts[1..];
    } else if Kept(o, x) {
      ReroutedCreates(acts, o.value, x.value);
    }
  }

  /** Part of the plan of a pod that stays in its group, or comes. */
  lemma StayingPart(name: string, o: Option<Pod>, x: Pod, acts: seq<Action>, k: nat)
    requires Named(name, o, Some(x)) && PodPlan(acts, name, o, Some(x)) && !Moves(o, Some(x))
    requires k <= |acts| && RunPod(o, acts[..k]).Done?
    ensures var o' := RunPod(o, acts[..k]).pod;
      && (o'.Some? ==> o'.value.group == x.group)
      && (InPlace(o, x) ==> InPlace(o', x))
      && (Jammed(o', Some(x)) ==> Jammed(o, Some(x)))
      && (Jammed(o, Some(x)) && o.value.addressed ==> Jammed(o', Some(x)) && o'.value.addressed)
  {
    PlanCreates(acts, name, o, Some(x));
    assert forall a :: a in acts[..k] ==> a in acts;
    RunGroup(o, acts[..k], x.group);
    XfrmPasses.PodDuringPass(name, o, Some(x), acts, k);
    if o.Some? && o.value.addressed {
      XfrmPasses.PrefixAddressed(o, acts[..k]);
    }
  }

  /** Part of the plan of a pod that moves in order: at first it stays, then it is as if it came. */
  lemma MovingPart(name: string, p: Pod, x: Pod, acts: seq<Action>, k: nat)
    requires acts != [] && acts[0] == Delete(name) && 0 < k <= |acts|
    ensures RunPod(Some(p), acts[..k]) == RunPod(None, acts[1..][..k - 1])
  {
    assert acts[..k][0] == acts[0] && acts[..k][1..] == acts[1..][..k - 1];
  }

  /** During a pass: a misplaced pod stays as it is, no pod gets misplaced, pods in place stay in place,
      none gets jammed, and none whose IP was known gets unjammed. */
  lemma PodPart(name: string, desired: seq<GroupState>, refs: set<string>, o: Option<Pod>, x: Option<Pod>,
                acts: seq<Action>, k: nat)
    requires Named(name, o, x) && NamePlan(acts, name, desired, refs, o, x)
    requires x.Some? ==> x.value.group in refs
    requires k <= |acts| && RunPod(o, acts[..k]).Done?
    ensures var o' := RunPod(o, acts[..k]).pod;
      && (Misplaced(desired, refs, o, x) ==> o' == o)
      && (Misplaced(desired, refs, o', x) ==> Misplaced(desired, refs, o, x))
      && (x.Some? && InPlace(o, x.value) ==> InPlace(o', x.value))
      && (Jammed(o', x) ==> Jammed(o, x))
      && (Jammed(o, x) && o.value.addressed ==> Jammed(o', x) && o'.value.addressed)
  {
    if k == 0 {
      assert acts[..0] == [];
    } else if x.None? {
    } else if !Moves(o, x) {
      StayingPart(name, o, x.value, acts, k);
    } else if Misplaced(desired, refs, o, x) {
      BlockedAtOnce(o.value, acts[..k]);
    } else {
      MovingPart(name, o.value, x.value, acts, k);
      StayingPart(name, None, x.value, acts[1..], k - 1);
    }
  }

  /** A pod at which a pass ends, if not hopeless, has no IP yet or just got created in its place. */
  lemma PodStopsAt(name: string, desired: seq<GroupState>, refs: set<string>, o: Option<Pod>, x: Option<Pod>,
                   acts: seq<Action>, j: nat)
    requires Named(name, o, x) && NamePlan(acts, name, desired, refs, o, x) && !Hopeless(desired, refs, o, x)
    requires (x.Some? ==> x.value.group in refs) && j < |acts|
    requires RunPod(o, acts[..j]).Done? && Do(RunPod(o, acts[..j]).pod, acts[j]) == Abort
    ensures x.Some?
    ensures (o.Some? && !o.value.addressed) ||
      (Queued(o, x.value) && !Queued(RunPod(o, acts[..j]).pod, x.value))
  {
    if Moves(o, x) {
      assert j > 0;
      MovingPart(name, o.value, x.value, acts, j);
      XfrmPasses.PodStops(name, None, x, acts[1..], j - 1);
      StayingPart(name, None, x.value, acts[1..], j - 1);
    } else {
      XfrmPasses.PodStops(name, o, x, acts, j);
      StayingPart(name, o, x.value, acts, j);
    }
  }

  /** A plan that runs to its end reaches what is desired of a pod. */
  lemma PodReached(name: string, desired: seq<GroupState>, refs: set<string>, o: Option<Pod>, x: Option<Pod>,
                   acts: seq<Action>)
    requires Named(name, o, x) && NamePlan(acts, name, desired, refs, o, x) && Tidy(o) && Tidy(x)
    requires (x.Some? ==> x.value.group in refs) && RunPod(o, acts).Done?
    ensures Reached(refs, RunPod(o, acts).pod, x)
  {
    if Moves(o, x) {
      if Misplaced(desired, refs, o, x) {
        BlockedAtOnce(o.value, acts);
      } else {
        assert RunPod(o, acts) == RunPod(None, acts[1..]);
        StayingReached(name, None, x.value, acts[1..]);
      }
    } else if x.Some? {
      StayingReached(name, o, x.value, acts);
    } else if o.Some? && o.value.group in refs {
      RunDelete(o.value, name);
    }
  }

  lemma StayingReached(name: string, o: Option<Pod>, x: Pod, acts: seq<Action>)
    requires Named(name, o, Some(x)) && PodPlan(acts, name, o, Some(x)) && !Moves(o, Some(x))
    requires Tidy(o) && TidyRoutes(x.routes) && RunPod(o, acts).Done?
    ensures Meets(RunPod(o, acts).pod, Some(x)) && RunPod(o, acts).pod.value.group == x.group
  {
    ReachesIff(name, o, Some(x), acts);
    if Kept(o, Some(x)) {
      DistinctClean(o.value.routes.local, x.routes.local);
      DistinctClean(o.value.routes.remote, x.routes.remote);
    }
    assert acts[..|acts|] == acts;
    StayingPart(name, o, x, acts, |acts|);
  }

  lemma PodDone(name: string, desired: seq<GroupState>, refs: set<string>, o: Option<Pod>, x: Option<Pod>,
                acts: seq<Action>)
    requires Named(name, o, x) && NamePlan(acts, name, desired, refs, o, x) && Reached(refs, o, x)
    requires x.Some? ==> x.value.group in refs
    ensures acts == []
  {
    if x.Some? {
      NothingPlannedIff(name, o, x, acts);
    }
  }

  lemma PodTidy(name: string, desired: seq<GroupState>, refs: set<string>, o: Option<Pod>, x: Option<Pod>,
                acts: seq<Action>, k: nat)
    requires Named(name, o, x) && NamePlan(acts, name, desired, refs, o, x) && Tidy(o) && Tidy(x)
    requires (x.Some? ==> x.value.group in refs) && k <= |acts| && RunPod(o, acts[..k]).Done?
    ensures Tidy(RunPod(o, acts[..k]).pod) && Named(name, RunPod(o, acts[..k]).pod, x)
  {
    if k == 0 {
      assert acts[..0] == [];
    } else if !Moves(o, x) {
      if !(o.Some? && o.value.group !in refs) {
        PrefixTidy(name, o, x, acts, k);
      }
    } else if Misplaced(desired, refs, o, x) {
      BlockedAtOnce(o.value, acts[..k]);
    } else {
      MovingPart(name, o.value, x.value, acts, k);
      PrefixTidy(name, None, x, acts[1..], k - 1);
    }
  }

  // ---------------------------------------------------------------- what is planned

  lemma ViewHome(current: seq<GroupState>, refs: set<string>, s: Recorded, name: string)
    requires View(current, refs, s)
    ensures HomeOf(current, name) == if name in s && s[name].group in refs then Some(s[name].group) else None
    ensures Orphan(current, s, name) <==> name in s && s[name].group !in refs
  {
    HomeIs(current, name);
    if HomeOf(current, name).Some? {
      var g :| g in current && Some(g.ref) == HomeOf(current, name) && AtHome(current, g, name);
      WantIff(GroupPods(g), name);
      FindGroupIff(current, g.ref);
    }
  }

  lemma GoalHome(desired: seq<GroupState>, current: seq<GroupState>, refs: set<string>, name: string)
    requires Tagged(desired) && forall ref :: FindGroup(current, ref).Some? <==> ref in refs
    ensures var x := Want(GoalFor(desired, refs), name);
      && HomeOf(Shared(desired, current), name) == (if x.Some? then Some(x.value.group) else None)
      && (x.Some? ==> x.value.group in refs)
  {
    var shared := Shared(desired, current);
    GoalIs(desired, current, refs);
    HomeIs(shared, name);
    if HomeOf(shared, name).Some? {
      var g :| g in shared && Some(g.ref) == HomeOf(shared, name) && AtHome(shared, g, name);
      WantIff(GroupPods(g), name);
      SharedIff(desired, current, g);
    }
  }

  /** What the plan of the cluster has for a pod. */
  lemma NamePlanned(s: Recorded, desired: seq<GroupState>, current: seq<GroupState>, refs: set<string>,
                    acts: seq<Action>,
                    name: string)
    requires Prepared(desired, current) && Tagged(desired) && View(current, refs, s)
    requires Staged(acts, desired, Order(desired, current))
    ensures NamePlan(Of(acts, name), name, desired, refs, Get(s, name), Want(GoalFor(desired, refs), name))
  {
    GoalIs(desired, current, refs);
    FateIs(s, desired, current, refs, name);
    if Moved(desired, current, name) {
      MovePlanned(desired, current, acts, name);
    } else if Orphan(current, s, name) {
      OrphanPlanned(s, desired, current, acts, name);
    } else {
      ListedAt(current, s, name);
      PlannedAtHome(acts, desired, current, name);
    }
  }

  /** Which of the three it is, in terms of the pods themselves. */
  lemma FateIs(s: Recorded, desired: seq<GroupState>, current: seq<GroupState>, refs: set<string>, name: string)
    requires Tagged(desired) && View(current, refs, s)
    ensures var o, x := Get(s, name), Want(GoalFor(desired, refs), name);
      && (Orphan(current, s, name) <==> o.Some? && o.value.group !in refs)
      && (Moved(desired, current, name) <==> Moves(o, x) && o.value.group in refs)
      && (Moved(desired, current, name) ==> (InOrder(desired, current, name) <==> !Misplaced(desired, refs, o, x)))
  {
    ViewHome(current, refs, s, name);
    GoalHome(desired, current, refs, name);
  }

  lemma MovePlanned(desired: seq<GroupState>, current: seq<GroupState>, acts: seq<Action>, name: string)
    requires Prepared(desired, current) && Staged(acts, desired, Order(desired, current))
    requires Moved(desired, current, name)
    ensures Of(acts, name) != []
    ensures if InOrder(desired, current, name)
      then Of(acts, name)[0] == Delete(name) && PodPlan(Of(acts, name)[1..], name, None, Want(Goal(desired, current), name))
      else Of(acts, name)[0].Create?
  {
    PlannedMove(acts, desired, current, name);
    if !InOrder(desired, current, name) {
      CreatesFirst(Of(acts, name), name, Want(Goal(desired, current), name).value);
    }
  }

  // ---------------------------------------------------------------- one pass

  /** A pass: a plan for what is recorded, executed up to the first action that fails. */
  ghost predicate Pass(before: Recorded, desired: seq<GroupState>, refs: set<string>, current: seq<GroupState>,
                       acts: seq<ClusterAction>, done: nat, after: Recorded) {
    && Prepared(desired, current) && View(current, refs, before)
    && PlanFrom(acts, desired, current, Order(desired, current))
    && done <= |acts| && Execute(before, acts[..done]) == Some(after)
    && (done < |acts| ==> Execute(after, [acts[done]]) == None)
  }

  ghost predicate OnePass(before: Recorded, desired: seq<GroupState>, refs: set<string>, after: Recorded) {
    exists current, acts, done :: Pass(before, desired, refs, current, acts, done, after)
  }

  /** The same on the pod actions, every pod having its part of the plan. */
  ghost predicate PodPass(before: Recorded, desired: seq<GroupState>, refs: set<string>, acts: seq<Action>, m: nat,
                          after: Recorded) {
    && (forall name :: NamePlan(Of(acts, name), name, desired, refs, Get(before, name), Want(GoalFor(desired, refs), name)))
    && m <= |acts| && Run(before, acts[..m]) == Some(after)
    && (m < |acts| ==> DoAt(after, acts[m]) == None)
  }

  /** Names are in order, and route lists hold no entry twice. */
  ghost predicate Sound(s: Recorded, desired: seq<GroupState>, refs: set<string>) {
    Tagged(desired) && WellNamed(s, GoalFor(desired, refs)) && AllTidy(s, GoalFor(desired, refs))
  }

  lemma PrefixMeets(s: Recorded, acts: seq<ClusterAction>, done: nat)
    requires OverridesMeet(s, acts) && done <= |acts|
    ensures OverridesMeet(s, acts[..done])
  {
    forall i | 0 <= i < done && acts[..done][i].Override? && Run(s, Pods(acts[..done][..i])).Some?
      ensures acts[..done][i].podName in Run(s, Pods(acts[..done][..i])).value
    {
      assert acts[..done][..i] == acts[..i];
    }
  }

  lemma PrefixExecutes(s: Recorded, acts: seq<ClusterAction>, done: nat)
    requires OverridesMeet(s, acts) && done <= |acts|
    ensures Execute(s, acts[..done]) == Run(s, Pods(acts[..done]))
  {
    PrefixMeets(s, acts, done);
    ExecutesIff(s, acts[..done]);
  }

  lemma PodsPrefix(acts: seq<ClusterAction>, done: nat)
    requires done <= |acts|
    ensures |Pods(acts[..done])| <= |Pods(acts)| && Pods(acts)[..|Pods(acts[..done])|] == Pods(acts[..done])
    ensures done < |acts| && acts[done].OnPod? ==>
      |Pods(acts[..done])| < |Pods(acts)| && Pods(acts)[|Pods(acts[..done])|] == acts[done].action
  {
    assert acts == acts[..done] + acts[done..];
    PodsConcat(acts[..done], acts[done..]);
  }

  /** The action at which a pass ends is one on a pod. */
  lemma StopsOnPod(s: Recorded, acts: seq<ClusterAction>, done: nat, after: Recorded)
    requires OverridesMeet(s, acts) && done < |acts|
    requires Run(s, Pods(acts[..done])) == Some(after) && Execute(after, [acts[done]]) == None
    ensures acts[done].OnPod? && DoAt(after, acts[done].action) == None
  {
    assert [acts[done]][1..] == [];
    assert Execute(after, []) == Some(after);
  }

  /** Where a pass ends among the pod actions. */
  lemma PassEnd(before: Recorded, acts: seq<ClusterAction>, done: nat, after: Recorded) returns (m: nat)
    requires OverridesMeet(before, acts) && done <= |acts| && Execute(before, acts[..done]) == Some(after)
    requires done < |acts| ==> Execute(after, [acts[done]]) == None
    ensures m <= |Pods(acts)| && Run(before, Pods(acts)[..m]) == Some(after)
    ensures m < |Pods(acts)| ==> DoAt(after, Pods(acts)[m]) == None
  {
    PrefixExecutes(before, acts, done);
    PodsPrefix(acts, done);
    m := |Pods(acts[..done])|;
    if done < |acts| {
      StopsOnPod(before, acts, done, after);
    } else {
      assert acts[..done] == acts;
    }
  }

  lemma PassOnPods(before: Recorded, desired: seq<GroupState>, refs: set<string>, current: seq<GroupState>,
                   acts: seq<ClusterAction>, done: nat, after: Recorded) returns (m: nat)
    requires Sound(before, desired, refs) && Pass(before, desired, refs, current, acts, done, after)
    ensures PodPass(before, desired, refs, Pods(acts), m, after)
  {
    GoalIs(desired, current, refs);
    GroundedMeets(before, desired, current, acts);
    m := PassEnd(before, acts, done, after);
    forall name
      ensures NamePlan(Of(Pods(acts), name), name, desired, refs, Get(before, name), Want(GoalFor(desired, refs), name))
    {
      NamePlanned(before, desired, current, refs, Pods(acts), name);
    }
  }

  lemma {:induction false} GoalGroups(desired: seq<GroupState>, refs: set<string>)
    requires Tagged(desired)
    ensures forall p :: p in GoalFor(desired, refs) ==> p.group in refs
  {
    if desired != [] {
      assert forall g :: g in desired[1..] ==> g in desired;
      GoalGroups(desired[1..], refs);
    }
  }

  lemma GoalGroup(desired: seq<GroupState>, refs: set<string>, name: string)
    requires Tagged(desired)
    ensures var x := Want(GoalFor(desired, refs), name); x.Some? ==> x.value.group in refs
  {
    GoalGroups(desired, refs);
    WantIff(GoalFor(desired, refs), name);
  }

  /** The part of a pass that concerns one pod. */
  lemma PassPart(before: Recorded, desired: seq<GroupState>, refs: set<string>, acts: seq<Action>, m: nat,
                 after: Recorded, name: string) returns (j: nat)
    requires Sound(before, desired, refs) && PodPass(before, desired, refs, acts, m, after)
    ensures var o, x := Get(before, name), Want(GoalFor(desired, refs), name);
      && Named(name, o, x) && (x.Some? ==> x.value.group in refs) && Tidy(o) && Tidy(x)
      && NamePlan(Of(acts, name), name, desired, refs, o, x)
      && j <= |Of(acts, name)| && RunPod(o, Of(acts, name)[..j]) == Done(Get(after, name))
    ensures m < |acts| && Target(acts[m]) == name ==> j < |Of(acts, name)| && Of(acts, name)[j] == acts[m]
    ensures m == |acts| ==> j == |Of(acts, name)|
  {
    NamedAt(before, GoalFor(desired, refs), name);
    GoalGroup(desired, refs, name);
    WantIff(GoalFor(desired, refs), name);
    Project(before, acts[..m], name);
    j := OfPrefix(acts, m, name);
    if m == |acts| {
      assert acts[..m] == acts;
    }
  }

  lemma PassPod(before: Recorded, desired: seq<GroupState>, refs: set<string>, acts: seq<Action>, m: nat,
                after: Recorded, name: string)
    requires Sound(before, desired, refs) && PodPass(before, desired, refs, acts, m, after)
    ensures var o, o', x := Get(before, name), Get(after, name), Want(GoalFor(desired, refs), name);
      && (Hopeless(desired, refs, o, x) ==> Hopeless(desired, refs, o', x))
      && (Misplaced(desired, refs, o', x) || Jammed(o', x) ==> Misplaced(desired, refs, o, x) || Jammed(o, x))
      && (x.Some? && InPlace(o, x.value) ==> InPlace(o', x.value))
      && Tidy(o') && Named(name, o', x)
  {
    var j := PassPart(before, desired, refs, acts, m, after, name);
    var o, x := Get(before, name), Want(GoalFor(desired, refs), name);
    PodPart(name, desired, refs, o, x, Of(acts, name), j);
    PodTidy(name, desired, refs, o, x, Of(acts, name), j);
  }

  /** Some pod makes every pass end early. */
  ghost predicate Blocked(s: Recorded, desired: seq<GroupState>, refs: set<string>) {
    exists name :: Hopeless(desired, refs, Get(s, name), Want(GoalFor(desired, refs), name))
  }

  /** No pod is misplaced, and none has to lose a remote route. */
  ghost predicate NoneHeld(s: Recorded, desired: seq<GroupState>, refs: set<string>) {
    forall name :: var o, x := Get(s, name), Want(GoalFor(desired, refs), name);
      !Misplaced(desired, refs, o, x) && !Jammed(o, x)
  }

  ghost predicate AllReached(s: Recorded, desired: seq<GroupState>, refs: set<string>) {
    forall name :: Reached(refs, Get(s, name), Want(GoalFor(desired, refs), name))
  }

  function Waiting(s: Recorded, goal: seq<Pod>): nat {
    if goal == [] then 0 else (if Queued(Get(s, goal[0].name), goal[0]) then 1 else 0) + Waiting(s, goal[1..])
  }

  lemma PodPassKeeps(before: Recorded, desired: seq<GroupState>, refs: set<string>, acts: seq<Action>, m: nat,
                     after: Recorded)
    requires Sound(before, desired, refs) && PodPass(before, desired, refs, acts, m, after)
    ensures Sound(after, desired, refs)
    ensures Blocked(before, desired, refs) ==> Blocked(after, desired, refs)
    ensures NoneHeld(before, desired, refs) ==> NoneHeld(after, desired, refs)
  {
    var goal := GoalFor(desired, refs);
    forall name ensures var o, o', x := Get(before, name), Get(after, name), Want(goal, name);
      && (Hopeless(desired, refs, o, x) ==> Hopeless(desired, refs, o', x))
      && (Misplaced(desired, refs, o', x) || Jammed(o', x) ==> Misplaced(desired, refs, o, x) || Jammed(o, x))
      && Tidy(o') && Named(name, o', x)
    {
      PassPod(before, desired, refs, acts, m, after, name);
    }
    forall name | name in after ensures after[name].name == name && TidyRoutes(after[name].routes) {
      assert Get(after, name) == Some(after[name]);
    }
  }

  /** A pass that ends early, with nothing hopeless and every IP known, got a pod with FDB entries
      created in its place. */
  lemma EarlyEnd(before: Recorded, desired: seq<GroupState>, refs: set<string>, acts: seq<Action>, m: nat,
                 after: Recorded) returns (x: Pod)
    requires Sound(before, desired, refs) && PodPass(before, desired, refs, acts, m, after) && m < |acts|
    requires !Blocked(before, desired, refs) && XfrmPasses.AllAddressed(before)
    ensures x in GoalFor(desired, refs) && Queued(Get(before, x.name), x) && !Queued(Get(after, x.name), x)
  {
    var t := Target(acts[m]);
    HopefulAt(before, desired, refs, t);
    var j := StopPart(before, desired, refs, acts, m, after);
    StoppedPod(t, desired, refs, Get(before, t), Want(GoalFor(desired, refs), t), Of(acts, t), j, Get(after, t));
    WantIff(GoalFor(desired, refs), t);
    x := Want(GoalFor(desired, refs), t).value;
  }

  lemma HopefulAt(s: Recorded, desired: seq<GroupState>, refs: set<string>, name: string)
    requires !Blocked(s, desired, refs) && XfrmPasses.AllAddressed(s)
    ensures !Hopeless(desired, refs, Get(s, name), Want(GoalFor(desired, refs), name))
    ensures Get(s, name).Some? ==> s[name].addressed
  {}

  /** The pod at which a pass ends. */
  lemma StopPart(before: Recorded, desired: seq<GroupState>, refs: set<string>, acts: seq<Action>, m: nat,
                 after: Recorded) returns (j: nat)
    requires Sound(before, desired, refs) && PodPass(before, desired, refs, acts, m, after) && m < |acts|
    ensures var t := Target(acts[m]);
      var o, x := Get(before, t), Want(GoalFor(desired, refs), t);
      && Named(t, o, x) && (x.Some? ==> x.value.group in refs) && NamePlan(Of(acts, t), t, desired, refs, o, x)
      && j < |Of(acts, t)| && RunPod(o, Of(acts, t)[..j]) == Done(Get(after, t))
      && Do(Get(after, t), Of(acts, t)[j]) == Abort
  {
    j := PassPart(before, desired, refs, acts, m, after, Target(acts[m]));
  }

  lemma StoppedPod(name: string, desired: seq<GroupState>, refs: set<string>, o: Option<Pod>, x: Option<Pod>,
                   acts: seq<Action>, j: nat, o': Option<Pod>)
    requires Named(name, o, x) && NamePlan(acts, name, desired, refs, o, x) && !Hopeless(desired, refs, o, x)
    requires (x.Some? ==> x.value.group in refs) && (o.Some? ==> o.value.addressed)
    requires j < |acts| && RunPod(o, acts[..j]) == Done(o') && Do(o', acts[j]) == Abort
    ensures x.Some? && Queued(o, x.value) && !Queued(o', x.value)
  {
    PodStopsAt(name, desired, refs, o, x, acts, j);
  }

  lemma {:induction false} WaitingDrops(before: Recorded, after: Recorded, goal: seq<Pod>)
    requires forall y :: y in goal && Queued(Get(after, y.name), y) ==> Queued(Get(before, y.name), y)
    ensures Waiting(after, goal) <= Waiting(before, goal)
    ensures (exists x :: x in goal && Queued(Get(before, x.name), x) && !Queued(Get(after, x.name), x)) ==>
      Waiting(after, goal) < Waiting(before, goal)
  {
    if goal != [] {
      WaitingDrops(before, after, goal[1..]);
    }
  }

  /** A name tells a desired pod. */
  ghost predicate Told(goal: seq<Pod>) {
    forall y :: y in goal ==> Want(goal, y.name) == Some(y)
  }

  lemma GoalTold(desired: seq<GroupState>, current: seq<GroupState>, refs: set<string>)
    requires UniqueNames(desired) && forall ref :: FindGroup(current, ref).Some? <==> ref in refs
    ensures Told(GoalFor(desired, refs))
  {
    GoalIs(desired, current, refs);
    forall y | y in Goal(desired, current) ensures Want(Goal(desired, current), y.name) == Some(y) {
      AllPodsIff(Shared(desired, current), y);
      var d :| d in Shared(desired, current) && y in GroupPods(d);
      SharedIff(desired, current, d);
      InGoal(desired, current, d, y);
    }
  }

  /** No pod is newly queued after a pass. */
  lemma QueuedBefore(before: Recorded, desired: seq<GroupState>, refs: set<string>, acts: seq<Action>, m: nat,
                     after: Recorded)
    requires Told(GoalFor(desired, refs))
    requires Sound(before, desired, refs) && PodPass(before, desired, refs, acts, m, after)
    ensures forall y :: y in GoalFor(desired, refs) && Queued(Get(after, y.name), y) ==> Queued(Get(before, y.name), y)
  {
    var goal := GoalFor(desired, refs);
    forall y | y in goal && Queued(Get(after, y.name), y) ensures Queued(Get(before, y.name), y) {
      PassPod(before, desired, refs, acts, m, after, y.name);
    }
  }

  lemma FullPass(before: Recorded, desired: seq<GroupState>, refs: set<string>, acts: seq<Action>, after: Recorded)
    requires Sound(before, desired, refs) && PodPass(before, desired, refs, acts, |acts|, after)
    ensures AllReached(after, desired, refs)
  {
    forall name ensures Reached(refs, Get(after, name), Want(GoalFor(desired, refs), name)) {
      var j := PassPart(before, desired, refs, acts, |acts|, after, name);
      assert Of(acts, name)[..j] == Of(acts, name);
      PodReached(name, desired, refs, Get(before, name), Want(GoalFor(desired, refs), name), Of(acts, name));
    }
  }

  lemma ReachedPass(before: Recorded, desired: seq<GroupState>, refs: set<string>, acts: seq<Action>, m: nat,
                    after: Recorded)
    requires Sound(before, desired, refs) && PodPass(before, desired, refs, acts, m, after)
    requires AllReached(before, desired, refs)
    ensures after == before
  {
    if acts != [] {
      var t := Target(acts[0]);
      var j := PassPart(before, desired, refs, acts, m, after, t);
      PodDone(t, desired, refs, Get(before, t), Want(GoalFor(desired, refs), t), Of(acts, t));
    }
    assert acts[..m] == [];
  }

  lemma PassKeeps(before: Recorded, desired: seq<GroupState>, refs: set<string>, after: Recorded)
    requires Sound(before, desired, refs) && OnePass(before, desired, refs, after)
    ensures Sound(after, desired, refs)
    ensures Blocked(before, desired, refs) ==> Blocked(after, desired, refs)
    ensures NoneHeld(before, desired, refs) ==> NoneHeld(after, desired, refs)
  {
    var current, acts, done :| Pass(before, desired, refs, current, acts, done, after);
    var m := PassOnPods(before, desired, refs, current, acts, done, after);
    PodPassKeeps(before, desired, refs, Pods(acts), m, after);
  }

  /** After a pass over pods whose IPs are known, either everything is reached or fewer pods wait. */
  lemma PassProgress(before: Recorded, desired: seq<GroupState>, refs: set<string>, after: Recorded)
    requires Sound(before, desired, refs) && NoneHeld(before, desired, refs) && OnePass(before, desired, refs, after)
    ensures var goal := GoalFor(desired, refs);
      && Waiting(after, goal) <= Waiting(before, goal)
      && (XfrmPasses.AllAddressed(before) ==> AllReached(after, desired, refs) || Waiting(after, goal) < Waiting(before, goal))
    ensures AllReached(before, desired, refs) ==> after == before
  {
    var current, acts, done :| Pass(before, desired, refs, current, acts, done, after);
    var m := PassOnPods(before, desired, refs, current, acts, done, after);
    GoalTold(desired, current, refs);
    QueuedBefore(before, desired, refs, Pods(acts), m, after);
    WaitingDrops(before, after, GoalFor(desired, refs));
    if m == |Pods(acts)| {
      FullPass(before, desired, refs, Pods(acts), after);
    } else if XfrmPasses.AllAddressed(before) {
      assert !Blocked(before, desired, refs);
      var x := EarlyEnd(before, desired, refs, Pods(acts), m, after);
    }
    if AllReached(before, desired, refs) {
      ReachedPass(before, desired, refs, Pods(acts), m, after);
    }
  }

  // ---------------------------------------------------------------- reconciling

  lemma {:induction false} ExecuteConcat(s: Recorded, first: seq<ClusterAction>, second: seq<ClusterAction>)
    ensures Execute(s, first + second) ==
      match Execute(s, first) case None => None case Some(mid) => Execute(mid, second)
    decreases |first|
  {
    if first == [] {
      assert first + second == second;
    } else {
      assert (first + second)[1..] == first[1..] + second;
      match first[0]
      case Override(name, _) => ExecuteConcat(s, first[1..], second);
      case OnPod(a) =>
        if DoAt(s, a).Some? {
          ExecuteConcat(DoAt(s, a).value, first[1..], second);
        }
    }
  }

  lemma ExecuteNext(s: Recorded, acts: seq<ClusterAction>, i: nat)
    requires i < |acts|
    ensures Execute(s, acts[..i + 1]) ==
      match Execute(s, acts[..i]) case None => None case Some(mid) => Execute(mid, [acts[i]])
  {
    assert acts[..i + 1] == acts[..i] + [acts[i]];
    ExecuteConcat(s, acts[..i], [acts[i]]);
  }

  lemma ExecuteOne(s: Recorded, a: ClusterAction)
    ensures Execute(s, [a]) == if a.OnPod? then DoAt(s, a.action) else if a.podName in s then Some(s) else None
  {
    assert [a][1..] == [];
  }

  /** The loop of `Reconcile` over the plan of the whole cluster. */
  method ExecuteAll(executor: Executor, acts: seq<ClusterAction>) returns (done: nat)
    modifies executor
    ensures done <= |acts| && Execute(old(executor.recorded), acts[..done]) == Some(executor.recorded)
    ensures done < |acts| ==> Execute(executor.recorded, [acts[done]]) == None
  {
    assert acts[..0] == [];
    for i := 0 to |acts|
      invariant Execute(old(executor.recorded), acts[..i]) == Some(executor.recorded)
    {
      ExecuteNext(old(executor.recorded), acts, i);
      ExecuteOne(executor.recorded, acts[i]);
      var ok;
      match acts[i] {
        case Override(name, _) => ok := name in executor.recorded;
        case OnPod(a) => ok := executor.Perform(a);
      }
      if !ok {
        return i;
      }
    }
    done := |acts|;
  }

  /** `Reconcile`, as far as pods and restctl configurations are concerned: one pass, unless some
      restctl pod does not answer. */
  method ReconcileCluster(executor: Executor, r: Bookkeeping.Reconciler, desired: seq<GroupState>,
                          current: seq<GroupState>,
                          ghost refs: set<string>, conns: seq<Conn>, loaded: map<string, seq<string>>) returns (planned: bool)
    requires Distinct(r.allConns) && "" !in r.allConns && "" !in AllNames(conns)
    requires Prepared(desired, current) && View(current, refs, executor.recorded)
    modifies executor, r
    ensures planned ==> OnePass(old(executor.recorded), desired, refs, executor.recorded)
    ensures !planned ==> executor.recorded == old(executor.recorded) && exists g :: g in desired && g.ref !in loaded
  {
    ghost var before := executor.recorded;
    var plan := DiffStates(r, desired, current, conns, loaded);
    planned := plan.Plan?;
    if planned {
      var done := ExecuteAll(executor, plan.acts);
      assert Pass(before, desired, refs, current, plan.acts, done, executor.recorded);
    }
  }

  // ---------------------------------------------------------------- repeated passes

  /** Passes in turn: some pods recorded in a state get their IPs, which gives what is listed, and a
      pass leads from there to the next state. */
  ghost predicate Passes(states: seq<Recorded>, listed: seq<Recorded>, desired: seq<GroupState>, refs: set<string>) {
    && |states| == |listed| + 1
    && forall i :: 0 <= i < |listed| ==>
         XfrmPasses.Assigns(states[i], listed[i]) && OnePass(listed[i], desired, refs, states[i + 1])
  }

  lemma AssignsPod(before: Recorded, after: Recorded, desired: seq<GroupState>, refs: set<string>, name: string)
    requires XfrmPasses.Assigns(before, after)
    ensures var o, o', x := Get(before, name), Get(after, name), Want(GoalFor(desired, refs), name);
      && (Misplaced(desired, refs, o, x) <==> Misplaced(desired, refs, o', x)) && (Jammed(o, x) <==> Jammed(o', x))
      && (Hopeless(desired, refs, o, x) ==> Hopeless(desired, refs, o', x))
      && (Reached(refs, o, x) <==> Reached(refs, o', x))
  {
    XfrmPasses.AssignsAt(before, after, name);
  }

  lemma AssignsKeeps(before: Recorded, after: Recorded, desired: seq<GroupState>, refs: set<string>)
    requires XfrmPasses.Assigns(before, after)
    ensures Sound(before, desired, refs) ==> Sound(after, desired, refs)
    ensures NoneHeld(before, desired, refs) <==> NoneHeld(after, desired, refs)
    ensures Blocked(before, desired, refs) ==> Blocked(after, desired, refs)
    ensures AllReached(before, desired, refs) <==> AllReached(after, desired, refs)
  {
    forall name ensures
      var o, o', x := Get(before, name), Get(after, name), Want(GoalFor(desired, refs), name);
      && (Misplaced(desired, refs, o, x) <==> Misplaced(desired, refs, o', x)) && (Jammed(o, x) <==> Jammed(o', x))
      && (Hopeless(desired, refs, o, x) ==> Hopeless(desired, refs, o', x))
      && (Reached(refs, o, x) <==> Reached(refs, o', x))
    {
      AssignsPod(before, after, desired, refs, name);
    }
  }

  lemma {:induction false} AssignsWaiting(before: Recorded, after: Recorded, goal: seq<Pod>)
    requires XfrmPasses.Assigns(before, after)
    ensures Waiting(after, goal) == Waiting(before, goal)
  {
    if goal != [] {
      AssignsWaiting(before, after, goal[1..]);
      XfrmPasses.AssignsAt(before, after, goal[0].name);
    }
  }

  lemma PassesRest(states: seq<Recorded>, listed: seq<Recorded>, desired: seq<GroupState>, refs: set<string>)
    requires Passes(states, listed, desired, refs) && listed != []
    ensures Passes(states[1..], listed[1..], desired, refs)
    ensures XfrmPasses.Assigns(states[0], listed[0]) && OnePass(listed[0], desired, refs, states[1])
  {
    forall i | 0 <= i < |listed| - 1
      ensures XfrmPasses.Assigns(states[1..][i], listed[1..][i])
        && OnePass(listed[1..][i], desired, refs, states[1..][i + 1])
    {
      assert listed[1..][i] == listed[i + 1];
    }
  }

  lemma {:induction false} Settles(states: seq<Recorded>, listed: seq<Recorded>, desired: seq<GroupState>,
                                   refs: set<string>)
    requires Passes(states, listed, desired, refs) && Sound(states[0], desired, refs)
    requires NoneHeld(states[0], desired, refs)
    requires AllReached(states[0], desired, refs)
      || XfrmPasses.AddressedPasses(listed) > Waiting(states[0], GoalFor(desired, refs))
    ensures AllReached(states[|states| - 1], desired, refs)
    decreases |listed|
  {
    if listed != [] {
      PassesRest(states, listed, desired, refs);
      AssignsKeeps(states[0], listed[0], desired, refs);
      AssignsWaiting(states[0], listed[0], GoalFor(desired, refs));
      PassKeeps(listed[0], desired, refs, states[1]);
      PassProgress(listed[0], desired, refs, states[1]);
      Settles(states[1..], listed[1..], desired, refs);
    }
  }

  lemma HopelessNotReached(desired: seq<GroupState>, refs: set<string>, o: Option<Pod>, x: Option<Pod>)
    requires Hopeless(desired, refs, o, x)
    ensures !Reached(refs, o, x)
  {}

  lemma {:induction false} StaysBlocked(states: seq<Recorded>, listed: seq<Recorded>, desired: seq<GroupState>,
                                        refs: set<string>)
    requires Passes(states, listed, desired, refs) && Sound(states[0], desired, refs)
    requires Blocked(states[0], desired, refs)
    ensures !AllReached(states[|states| - 1], desired, refs)
    decreases |listed|
  {
    if listed == [] {
      var name :| Hopeless(desired, refs, Get(states[0], name), Want(GoalFor(desired, refs), name));
      HopelessNotReached(desired, refs, Get(states[0], name), Want(GoalFor(desired, refs), name));
    } else {
      PassesRest(states, listed, desired, refs);
      AssignsKeeps(states[0], listed[0], desired, refs);
      PassKeeps(listed[0], desired, refs, states[1]);
      StaysBlocked(states[1..], listed[1..], desired, refs);
    }
  }

  lemma HeldBlocks(s: Recorded, desired: seq<GroupState>, refs: set<string>)
    requires XfrmPasses.AllAddressed(s) && !NoneHeld(s, desired, refs)
    ensures Blocked(s, desired, refs)
  {
    var name :| var o, x := Get(s, name), Want(GoalFor(desired, refs), name); Misplaced(desired, refs, o, x) || Jammed(o, x);
    assert Hopeless(desired, refs, Get(s, name), Want(GoalFor(desired, refs), name));
  }

  lemma SettlesIff(states: seq<Recorded>, listed: seq<Recorded>, desired: seq<GroupState>, refs: set<string>)
    requires Passes(states, listed, desired, refs) && Sound(states[0], desired, refs)
    requires listed != [] && XfrmPasses.AllAddressed(listed[0])
    requires XfrmPasses.AddressedPasses(listed) > Waiting(states[0], GoalFor(desired, refs))
    ensures AllReached(states[|states| - 1], desired, refs) <==> NoneHeld(states[0], desired, refs)
  {
    if NoneHeld(states[0], desired, refs) {
      Settles(states, listed, desired, refs);
    } else {
      PassesRest(states, listed, desired, refs);
      AssignsKeeps(states[0], listed[0], desired, refs);
      HeldBlocks(listed[0], desired, refs);
      PassKeeps(listed[0], desired, refs, states[1]);
      StaysBlocked(states[1..], listed[1..], desired, refs);
    }
  }

  lemma PassKept(before: Recorded, listed: Recorded, after: Recorded, desired: seq<GroupState>, refs: set<string>)
    requires Sound(before, desired, refs) && XfrmPasses.Assigns(before, listed) && OnePass(listed, desired, refs, after)
    ensures Sound(after, desired, refs)
  {
    AssignsKeeps(before, listed, desired, refs);
    PassKeeps(listed, desired, refs, after);
  }

  lemma {:induction false} PassesFrom(states: seq<Recorded>, listed: seq<Recorded>, desired: seq<GroupState>,
                                      refs: set<string>, i: nat)
    requires Passes(states, listed, desired, refs) && Sound(states[0], desired, refs) && i <= |listed|
    ensures Passes(states[i..], listed[i..], desired, refs) && Sound(states[i], desired, refs)
    decreases i
  {
    if i == 0 {
      assert states[0..] == states && listed[0..] == listed;
    } else {
      PassesFrom(states, listed, desired, refs, i - 1);
      DropOneMore(states, i - 1);
      DropOneMore(listed, i - 1);
      PassesRest(states[i - 1..], listed[i - 1..], desired, refs);
      PassKept(states[i - 1], listed[i - 1], states[i], desired, refs);
    }
  }

  lemma {:induction false} GoalForIff(desired: seq<GroupState>, refs: set<string>, p: Pod)
    ensures p in GoalFor(desired, refs) <==> exists d :: d in desired && d.ref in refs && p in GroupPods(d)
  {
    if desired != [] {
      GoalForIff(desired[1..], refs, p);
      assert desired == [desired[0]] + desired[1..];
    }
  }

  /** Every pod desired of a group there is is recorded in its group, on the desired node, with the desired
      properties and routes; and no other pod of a group there is is recorded. */
  ghost predicate LikeDesired(s: Recorded, desired: seq<GroupState>, refs: set<string>) {
    && (forall d, x :: d in desired && d.ref in refs && HasPod(d, x) ==>
          x.name in s && s[x.name].group == x.group && Like(s[x.name], x))
    && (forall name :: name in s && s[name].group in refs ==>
          exists d, x :: d in desired && d.ref in refs && HasPod(d, x) && x.name == name)
  }

  lemma ReachedPod(s: Recorded, desired: seq<GroupState>, refs: set<string>, d: GroupState, x: Pod)
    requires AllReached(s, desired, refs) && Told(GoalFor(desired, refs))
    requires d in desired && d.ref in refs && HasPod(d, x)
    ensures x.name in s && s[x.name].group == x.group && Like(s[x.name], x)
  {
    GroupPodsIff(d, x);
    GoalForIff(desired, refs, x);
    assert Want(GoalFor(desired, refs), x.name) == Some(x);
    assert Reached(refs, Get(s, x.name), Want(GoalFor(desired, refs), x.name));
    MeetsIs(Get(s, x.name), x);
  }

  lemma ReachedFrom(s: Recorded, desired: seq<GroupState>, refs: set<string>, name: string)
      returns (d: GroupState, x: Pod)
    requires AllReached(s, desired, refs) && name in s && s[name].group in refs
    ensures d in desired && d.ref in refs && HasPod(d, x) && x.name == name
  {
    assert Reached(refs, Get(s, name), Want(GoalFor(desired, refs), name));
    WantIff(GoalFor(desired, refs), name);
    x := Want(GoalFor(desired, refs), name).value;
    GoalForIff(desired, refs, x);
    d :| d in desired && d.ref in refs && x in GroupPods(d);
    GroupPodsIff(d, x);
  }

  lemma ReachedLikeDesired(s: Recorded, desired: seq<GroupState>, refs: set<string>)
    requires AllReached(s, desired, refs) && Told(GoalFor(desired, refs))
    ensures LikeDesired(s, desired, refs)
  {
    forall d, x | d in desired && d.ref in refs && HasPod(d, x)
      ensures x.name in s && s[x.name].group == x.group && Like(s[x.name], x)
    {
      ReachedPod(s, desired, refs, d, x);
    }
    forall name | name in s && s[name].group in refs
      ensures exists d, x :: d in desired && d.ref in refs && HasPod(d, x) && x.name == name
    {
      var d, x := ReachedFrom(s, desired, refs, name);
    }
  }

  lemma PassTold(before: Recorded, desired: seq<GroupState>, refs: set<string>, after: Recorded)
    requires OnePass(before, desired, refs, after)
    ensures Told(GoalFor(desired, refs))
  {
    var current, acts, done :| Pass(before, desired, refs, current, acts, done, after);
    GoalTold(desired, current, refs);
  }

  /** Passes over the whole cluster, between which pods get their IPs: from a pass on that finds every
      pod with its IP, everything desired is reached in its group, and nothing else is left in the
      groups there are, if and only if then no pod moves against the order or is desired under the name
      of a pod whose group is gone, and none in its place has to lose a remote route. It is reached at
      the latest one pass after every pod with FDB entries that was missing, had to be replaced or moves
      in order got created, not counting passes that find a pod without its IP; otherwise it never is. */
  lemma ClusterSettlesIff(states: seq<Recorded>, listed: seq<Recorded>, desired: seq<GroupState>, refs: set<string>,
                          i: nat)
    requires Passes(states, listed, desired, refs) && Sound(states[0], desired, refs)
    requires i < |listed| && XfrmPasses.AllAddressed(listed[i])
    requires XfrmPasses.AddressedPasses(listed[i..]) > Waiting(states[i], GoalFor(desired, refs))
    ensures AllReached(states[|states| - 1], desired, refs) <==> NoneHeld(states[i], desired, refs)
    ensures AllReached(states[|states| - 1], desired, refs) ==> LikeDesired(states[|states| - 1], desired, refs)
  {
    PassesFrom(states, listed, desired, refs, i);
    SettlesIff(states[i..], listed[i..], desired, refs);
    if AllReached(states[|states| - 1], desired, refs) {
      PassTold(listed[i], desired, refs, states[i + 1]);
      ReachedLikeDesired(states[|states| - 1], desired, refs);
    }
  }
}

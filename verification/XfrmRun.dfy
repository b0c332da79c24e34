/** Executing a plan for the xfrm pods of a group on what is recorded in the cluster. */
module XfrmRun {
  import opened Api
  import opened Lists
  import opened Routes
  import opened XfrmPod
  import opened XfrmEffect
  import opened XfrmPlan

  type Recorded = map<string, Pod>

  function Get(s: Recorded, name: string): Option<Pod> {
    if name in s then Some(s[name]) else None
  }

  /** One action, or `None` when it fails. */
  function DoAt(s: Recorded, a: Action): Option<Recorded> {
    match Do(Get(s, Target(a)), a)
    case Abort => None
    case Done(None) => Some(s - {Target(a)})
    case Done(Some(p)) => Some(s[Target(a) := p])
  }

  /** A plan, or `None` when one of its actions fails: the rest is then not executed. */
  function Run(s: Recorded, acts: seq<Action>): Option<Recorded>
    decreases |acts|
  {
    if acts == [] then Some(s)
    else
      match DoAt(s, acts[0])
      case None => None
      case Some(after) => Run(after, acts[1..])
  }

  lemma {:induction false} RunConcat(s: Recorded, first: seq<Action>, second: seq<Action>)
    ensures Run(s, first + second) ==
      match Run(s, first) case None => None case Some(mid) => Run(mid, second)
    decreases |first|
  {
    if first == [] {
      assert first + second == second;
    } else {
      assert (first + second)[1..] == first[1..] + second;
      match DoAt(s, first[0])
      case None =>
      case Some(after) => RunConcat(after, first[1..], second);
    }
  }

  /** Executing the next action of a plan. */
  lemma RunNext(s: Recorded, acts: seq<Action>, k: nat)
    requires k < |acts|
    ensures Run(s, acts[..k + 1]) ==
      match Run(s, acts[..k]) case None => None case Some(mid) => DoAt(mid, acts[k])
  {
    assert acts[..k + 1] == acts[..k] + [acts[k]];
    RunConcat(s, acts[..k], [acts[k]]);
    if Run(s, acts[..k]).Some? {
      var mid := Run(s, acts[..k]).value;
      assert [acts[k]][1..] == [];
      assert Run(mid, [acts[k]]) == DoAt(mid, acts[k]);
    }
  }

  /** The recorded pods and the `Do` methods of the actions on them. */
  class Executor {
    var recorded: Recorded

    constructor (recorded: Recorded)
      ensures this.recorded == recorded
    {
      this.recorded := recorded;
    }

    method Perform(a: Action) returns (ok: bool)
      modifies this
      ensures ok <==> DoAt(old(recorded), a).Some?
      ensures recorded == if ok then DoAt(old(recorded), a).value else old(recorded)
      ensures forall name :: name != Target(a) ==> Get(recorded, name) == Get(old(recorded), name)
      ensures ok ==> Do(Get(old(recorded), Target(a)), a) == Done(Get(recorded, Target(a)))
    {
      var t := Target(a);
      ok := a.Create? <==> t !in recorded;
      if ok {
        match a
        case Create(pod) => recorded := recorded[t := pod.(addressed := true)];
        case Delete(_) => recorded := recorded - {t};
        case Local(_, op) =>
          var p := recorded[t];
          recorded := recorded[t := p.(addressed := true, routes := p.routes.(local := Apply(p.routes.local, op)))];
        case Remote(_, op, addressed) =>
          if op.Remove? && addressed {
            ok := false;
          } else {
            var p := recorded[t];
            recorded := recorded[t := p.(addressed := true, routes := p.routes.(remote := Apply(p.routes.remote, op)))];
          }
        case Bridge(_, op, addressed) =>
          if addressed {
            var p := recorded[t];
            recorded := recorded[t := p.(routes := p.routes.(fdb := ApplyKey(p.routes.fdb, op)))];
          } else {
            ok := false;
          }
      }
    }

    /** The loop of `Reconcile`: the first action that fails ends the pass. */
    method Execute(acts: seq<Action>) returns (done: nat)
      modifies this
      ensures done <= |acts| && Run(old(recorded), acts[..done]) == Some(recorded)
      ensures done < |acts| ==> DoAt(recorded, acts[done]) == None
    {
      assert acts[..0] == [];
      for i := 0 to |acts|
        invariant Run(old(recorded), acts[..i]) == Some(recorded)
      {
        RunNext(old(recorded), acts, i);
        var ok := Perform(acts[i]);
        if !ok {
          return i;
        }
      }
      done := |acts|;
    }
  }

  // ---------------------------------------------------------------- pod by pod

  lemma DoAtGet(s: Recorded, a: Action, name: string)
    requires DoAt(s, a).Some?
    ensures Get(DoAt(s, a).value, name) == if name == Target(a) then Do(Get(s, name), a).pod else Get(s, name)
  {}

  /** Executing a plan is executing, on each pod by itself, the actions on that pod. */
  lemma {:induction false} Project(s: Recorded, acts: seq<Action>, name: string)
    requires Run(s, acts).Some?
    ensures RunPod(Get(s, name), Of(acts, name)) == Done(Get(Run(s, acts).value, name))
    decreases |acts|
  {
    if acts != [] {
      DoAtGet(s, acts[0], name);
      Project(DoAt(s, acts[0]).value, acts[1..], name);
      if Target(acts[0]) == name {
        assert Of(acts, name)[1..] == Of(acts[1..], name);
      }
    }
  }

  lemma {:induction false} ProjectStop(s: Recorded, acts: seq<Action>) returns (name: string)
    requires Run(s, acts) == None
    ensures RunPod(Get(s, name), Of(acts, name)) == Abort
    decreases |acts|
  {
    if DoAt(s, acts[0]) == None {
      name := Target(acts[0]);
    } else {
      name := ProjectStop(DoAt(s, acts[0]).value, acts[1..]);
      DoAtGet(s, acts[0], name);
      if Target(acts[0]) == name {
        assert Of(acts, name)[1..] == Of(acts[1..], name);
      }
    }
  }

  /** `current` is a listing of what is recorded. */
  ghost predicate Listing(current: seq<Pod>, s: Recorded) {
    forall name :: Want(current, name) == Get(s, name)
  }

  ghost predicate PlanFor(acts: seq<Action>, s: Recorded, desired: seq<Pod>) {
    forall name :: PodPlan(Of(acts, name), name, Get(s, name), Want(desired, name))
  }

  lemma ListedPlan(acts: seq<Action>, current: seq<Pod>, desired: seq<Pod>, s: Recorded)
    requires Listing(current, s) && IsPlan(acts, current, desired)
    ensures PlanFor(acts, s, desired)
  {}

  // ---------------------------------------------------------------- reaching what is desired

  /** Pods are recorded under their names; a desired pod has no IP yet. */
  ghost predicate WellNamed(s: Recorded, desired: seq<Pod>) {
    && (forall name :: name in s ==> s[name].name == name)
    && (forall x :: x in desired ==> !x.addressed)
  }

  lemma NamedAt(s: Recorded, desired: seq<Pod>, name: string)
    requires WellNamed(s, desired)
    ensures Named(name, Get(s, name), Want(desired, name))
  {}

  ghost predicate MeetsAll(s: Recorded, desired: seq<Pod>) {
    forall name :: Meets(Get(s, name), Want(desired, name))
  }

  /** The node, the properties and the routes are those of `x`. */
  predicate Like(p: Pod, x: Pod) {
    && p.node == x.node
    && p.props.ownerChild == x.props.ownerChild && p.props.ownerConnection == x.props.ownerConnection
    && p.props.interfaceId == x.props.interfaceId
    && p.props.xfrmIP == x.props.xfrmIP && p.props.vxlanIP == x.props.vxlanIP
    && multiset(p.routes.local) == multiset(x.routes.local) && multiset(p.routes.remote) == multiset(x.routes.remote)
    && p.routes.fdb == x.routes.fdb
  }

  lemma MeetsIs(o: Option<Pod>, x: Pod)
    ensures Meets(o, Some(x)) <==> o.Some? && o.value.name == x.name && Like(o.value, x)
  {}

  /** Every desired pod is recorded on the desired node with the desired properties and routes, and no
      other pod is. */
  ghost predicate LikeDesired(s: Recorded, desired: seq<Pod>) {
    && (forall x :: x in desired && Want(desired, x.name) == Some(x) ==> x.name in s && Like(s[x.name], x))
    && (forall name :: name in s ==> exists x :: x in desired && x.name == name)
  }

  lemma MeetsLikeDesired(s: Recorded, desired: seq<Pod>)
    requires MeetsAll(s, desired)
    ensures LikeDesired(s, desired)
  {
    forall x | x in desired && Want(desired, x.name) == Some(x) ensures Meets(Get(s, x.name), Some(x)) {
      assert Meets(Get(s, x.name), Want(desired, x.name));
    }
    forall name | name in s ensures exists x :: x in desired && x.name == name {
      assert Meets(Get(s, name), Want(desired, name));
      WantIff(desired, name);
    }
  }

  /** A plan runs to its end exactly when no pod has to be created with FDB entries, no kept pod
      with a known IP has to lose a remote route, and no kept pod without one has to change its
      FDB entries. */
  lemma RunsToEndIff(s: Recorded, desired: seq<Pod>, acts: seq<Action>)
    requires WellNamed(s, desired) && PlanFor(acts, s, desired)
    ensures Run(s, acts).Some? <==> forall name :: Runnable(Get(s, name), Want(desired, name))
  {
    forall name ensures RunPod(Get(s, name), Of(acts, name)).Done? <==> Runnable(Get(s, name), Want(desired, name)) {
      NamedAt(s, desired, name);
      RunsIff(name, Get(s, name), Want(desired, name), Of(acts, name));
    }
    if Run(s, acts).Some? {
      forall name ensures Runnable(Get(s, name), Want(desired, name)) {
        Project(s, acts, name);
      }
    } else {
      var name := ProjectStop(s, acts);
    }
  }

  /** A plan that ran to its end leaves exactly the desired pods, each with the desired
      properties, node, route entries and FDB map, if and only if no desired route of a kept pod
      was recorded more often than desired. */
  lemma ReachesDesiredIff(s: Recorded, desired: seq<Pod>, acts: seq<Action>)
    requires WellNamed(s, desired) && PlanFor(acts, s, desired) && Run(s, acts).Some?
    ensures MeetsAll(Run(s, acts).value, desired) <==>
      forall name :: Kept(Get(s, name), Want(desired, name)) ==>
        CleanRoutes(Get(s, name).value.routes, Want(desired, name).value.routes)
    ensures MeetsAll(Run(s, acts).value, desired) ==> LikeDesired(Run(s, acts).value, desired)
  {
    var end := Run(s, acts).value;
    forall name ensures Meets(Get(end, name), Want(desired, name)) <==> (Kept(Get(s, name), Want(desired, name)) ==>
        CleanRoutes(Get(s, name).value.routes, Want(desired, name).value.routes))
    {
      NamedAt(s, desired, name);
      Project(s, acts, name);
      ReachesIff(name, Get(s, name), Want(desired, name), Of(acts, name));
    }
    if MeetsAll(end, desired) {
      MeetsLikeDesired(end, desired);
    }
  }

  /** The plan is empty exactly when names, properties, nodes, route entries and FDB maps match. */
  lemma EmptyPlanIff(s: Recorded, desired: seq<Pod>, acts: seq<Action>)
    requires WellNamed(s, desired) && PlanFor(acts, s, desired)
    ensures acts == [] <==> MeetsAll(s, desired)
    ensures acts == [] ==> LikeDesired(s, desired)
  {
    forall name ensures Of(acts, name) == [] <==> Meets(Get(s, name), Want(desired, name)) {
      NamedAt(s, desired, name);
      NothingPlannedIff(name, Get(s, name), Want(desired, name), Of(acts, name));
    }
    if acts != [] {
      assert Of(acts, Target(acts[0])) != [];
    } else {
      MeetsLikeDesired(s, desired);
    }
  }

  // ---------------------------------------------------------------- part of a plan

  /** No route list holds an entry twice, here or among the desired pods. */
  ghost predicate AllTidy(s: Recorded, desired: seq<Pod>) {
    && (forall name :: name in s ==> TidyRoutes(s[name].routes))
    && (forall x :: x in desired ==> TidyRoutes(x.routes))
  }

  /** The part of a plan before an action, and that action, as seen on its pod. */
  lemma OfPrefix(acts: seq<Action>, k: nat, name: string) returns (j: nat)
    requires k <= |acts|
    ensures j <= |Of(acts, name)| && Of(acts[..k], name) == Of(acts, name)[..j]
    ensures k < |acts| && Target(acts[k]) == name ==> j < |Of(acts, name)| && Of(acts, name)[j] == acts[k]
  {
    assert acts == acts[..k] + acts[k..];
    OfConcat(acts[..k], acts[k..], name);
    j := |Of(acts[..k], name)|;
  }

  lemma OfPrefixes(acts: seq<Action>, k: nat, name: string) returns (j: nat)
    requires k < |acts| && Target(acts[k]) == name
    ensures j < |Of(acts, name)| && Of(acts, name)[j] == acts[k]
    ensures Of(acts[..k], name) == Of(acts, name)[..j] && Of(acts[..k + 1], name) == Of(acts, name)[..j + 1]
  {
    j := OfPrefix(acts, k, name);
    assert acts[..k + 1] == acts[..k] + [acts[k]];
    OfConcat(acts[..k], [acts[k]], name);
    assert Of([acts[k]], name) == [acts[k]];
  }

  /** Whatever part of a plan was executed, its last action brought its pod closer to what is
      desired and touched no other. */
  lemma EveryStep(s: Recorded, desired: seq<Pod>, acts: seq<Action>, k: nat)
    requires WellNamed(s, desired) && AllTidy(s, desired) && PlanFor(acts, s, desired)
    requires k < |acts| && Run(s, acts[..k + 1]).Some?
    ensures Run(s, acts[..k]).Some?
    ensures var before, after, t := Run(s, acts[..k]).value, Run(s, acts[..k + 1]).value, Target(acts[k]);
      && Distance(Get(after, t), Want(desired, t)) < Distance(Get(before, t), Want(desired, t))
      && (forall name :: name != t ==> Get(after, name) == Get(before, name))
  {
    RunNext(s, acts, k);
    var before, after, t := Run(s, acts[..k]).value, Run(s, acts[..k + 1]).value, Target(acts[k]);
    var j := OfPrefixes(acts, k, t);
    NamedAt(s, desired, t);
    WantIff(desired, t);
    Project(s, acts[..k], t);
    Project(s, acts[..k + 1], t);
    StepCloser(t, Get(s, t), Want(desired, t), Of(acts, t), j);
    forall name | name != t ensures Get(after, name) == Get(before, name) {
      DoAtGet(before, acts[k], name);
    }
  }

  /** No action of a plan ever meets a missing pod, or creates a pod that is there: the only
      actions that fail are those `Runnable` speaks of. */
  lemma ActionsFit(s: Recorded, desired: seq<Pod>, acts: seq<Action>, k: nat)
    requires WellNamed(s, desired) && PlanFor(acts, s, desired)
    requires k < |acts| && Run(s, acts[..k]).Some?
    ensures acts[k].Create? <==> Target(acts[k]) !in Run(s, acts[..k]).value
  {
    var t := Target(acts[k]);
    var j := OfPrefixes(acts, k, t);
    NamedAt(s, desired, t);
    Project(s, acts[..k], t);
    ActionFits(t, Get(s, t), Want(desired, t), Of(acts, t), j);
  }

  /** Whatever part of a plan was executed, the state is still well-formed. */
  lemma StaysTidy(s: Recorded, desired: seq<Pod>, acts: seq<Action>, k: nat)
    requires WellNamed(s, desired) && AllTidy(s, desired) && PlanFor(acts, s, desired)
    requires k <= |acts| && Run(s, acts[..k]).Some?
    ensures WellNamed(Run(s, acts[..k]).value, desired) && AllTidy(Run(s, acts[..k]).value, desired)
  {
    var after := Run(s, acts[..k]).value;
    forall name | name in after ensures after[name].name == name && TidyRoutes(after[name].routes) {
      NamedAt(s, desired, name);
      WantIff(desired, name);
      Project(s, acts[..k], name);
      var j := OfPrefix(acts, k, name);
      PrefixTidy(name, Get(s, name), Want(desired, name), Of(acts, name), j);
      assert Get(after, name) == Some(after[name]);
    }
  }

  /** The distance over all the pods of a list of names. */
  function Total(s: Recorded, desired: seq<Pod>, names: seq<string>): nat {
    if names == [] then 0
    else Distance(Get(s, names[0]), Want(desired, names[0])) + Total(s, desired, names[1..])
  }

  lemma {:induction false} TotalDrops(before: Recorded, after: Recorded, desired: seq<Pod>, names: seq<string>,
                                      t: string)
    requires Distance(Get(after, t), Want(desired, t)) < Distance(Get(before, t), Want(desired, t))
    requires forall name :: name != t ==> Get(after, name) == Get(before, name)
    ensures Total(after, desired, names) <= Total(before, desired, names)
    ensures t in names ==> Total(after, desired, names) < Total(before, desired, names)
  {
    if names != [] {
      TotalDrops(before, after, desired, names[1..], t);
    }
  }

  /** Failure tolerance: a plan may be left after any action, and whichever plan is made next, if
      that one runs to its end, what is desired is reached; meanwhile every executed action made
      the total distance smaller. */
  lemma ReplanReaches(s: Recorded, desired: seq<Pod>, acts: seq<Action>, k: nat, names: seq<string>, again: seq<Action>)
    requires WellNamed(s, desired) && AllTidy(s, desired) && PlanFor(acts, s, desired)
    requires k < |acts| && Run(s, acts[..k + 1]).Some? && Target(acts[k]) in names
    requires PlanFor(again, Run(s, acts[..k + 1]).value, desired) && Run(Run(s, acts[..k + 1]).value, again).Some?
    ensures Run(s, acts[..k]).Some?
    ensures Total(Run(s, acts[..k + 1]).value, desired, names) < Total(Run(s, acts[..k]).value, desired, names)
    ensures MeetsAll(Run(Run(s, acts[..k + 1]).value, again).value, desired)
  {
    EveryStep(s, desired, acts, k);
    var mid := Run(s, acts[..k + 1]).value;
    TotalDrops(Run(s, acts[..k]).value, mid, desired, names, Target(acts[k]));
    StaysTidy(s, desired, acts, k + 1);
    TidyReaches(mid, desired, again);
  }

  lemma TidyReaches(s: Recorded, desired: seq<Pod>, acts: seq<Action>)
    requires WellNamed(s, desired) && AllTidy(s, desired) && PlanFor(acts, s, desired) && Run(s, acts).Some?
    ensures MeetsAll(Run(s, acts).value, desired)
  {
    ReachesDesiredIff(s, desired, acts);
    forall name | Kept(Get(s, name), Want(desired, name))
      ensures CleanRoutes(Get(s, name).value.routes, Want(desired, name).value.routes)
    {
      DistinctClean(Get(s, name).value.routes.local, Want(desired, name).value.routes.local);
      DistinctClean(Get(s, name).value.routes.remote, Want(desired, name).value.routes.remote);
    }
  }

  /** Over the names there are, the distance is zero exactly when what is desired is reached. */
  lemma {:induction false} TotalZeroIff(s: Recorded, desired: seq<Pod>, names: seq<string>)
    requires WellNamed(s, desired) && AllTidy(s, desired)
    ensures Total(s, desired, names) == 0 <==> forall name :: name in names ==> Meets(Get(s, name), Want(desired, name))
  {
    if names != [] {
      NamedAt(s, desired, names[0]);
      WantIff(desired, names[0]);
      DistanceZeroIff(names[0], Get(s, names[0]), Want(desired, names[0]));
      TotalZeroIff(s, desired, names[1..]);
    }
  }
}

/** Repeated passes: plan from what is recorded, execute until an action fails, and plan again; in
    between, pods get their IPs. */
module XfrmPasses {
  import opened Api
  import opened Lists
  import opened Ordering
  import opened Routes
  import opened XfrmPod
  import opened XfrmEffect
  import opened XfrmPlan
  import opened XfrmRun

  /** A pass: a plan for the state before it, executed up to the first action that fails. */
  ghost predicate Pass(before: Recorded, desired: seq<Pod>, acts: seq<Action>, done: nat, after: Recorded) {
    && PlanFor(acts, before, desired)
    && done <= |acts| && Run(before, acts[..done]) == Some(after)
    && (done < |acts| ==> DoAt(after, acts[done]) == None)
  }

  ghost predicate OnePass(before: Recorded, desired: seq<Pod>, after: Recorded) {
    exists acts, done :: Pass(before, desired, acts, done, after)
  }

  /** The part of `Reconcile` about the xfrm pods of a group. */
  method ReconcileXfrms(executor: Executor, desired: seq<Pod>, current: seq<Pod>)
    requires Distinct(Names(desired)) && StrictlyAscending(Names(desired))
    requires Distinct(Names(current)) && Listing(current, executor.recorded)
    modifies executor
    ensures OnePass(old(executor.recorded), desired, executor.recorded)
  {
    ghost var before := executor.recorded;
    var acts := DiffXfrms(desired, current);
    SearchedPlan(acts, desired, current);
    ListedPlan(acts, current, desired, before);
    var done := executor.Execute(acts);
    assert Pass(before, desired, acts, done, executor.recorded);
  }

  /** Pods are given their IPs. */
  ghost predicate Assigns(before: Recorded, after: Recorded) {
    && after.Keys == before.Keys
    && forall name :: name in before ==> after[name] in {before[name], before[name].(addressed := true)}
  }

  /** Passes in turn: some pods recorded in a state get their IPs, which gives what is listed, and a
      pass leads from there to the next state. */
  ghost predicate Passes(states: seq<Recorded>, listed: seq<Recorded>, desired: seq<Pod>) {
    && |states| == |listed| + 1
    && forall i :: 0 <= i < |listed| ==> Assigns(states[i], listed[i]) && OnePass(listed[i], desired, states[i + 1])
  }

  ghost predicate AllAddressed(s: Recorded) {
    forall name :: name in s ==> s[name].addressed
  }

  /** A pod that is kept, and a remote route has to go. */
  predicate Stuck(o: Option<Pod>, x: Option<Pod>) {
    Kept(o, x) && LosesRemote(o.value.routes, x.value.routes)
  }

  /** Its IP is known, so removing the route fails. */
  predicate Blocking(o: Option<Pod>, x: Option<Pod>) {
    Stuck(o, x) && o.value.addressed
  }

  ghost predicate NoneStuck(s: Recorded, desired: seq<Pod>) {
    forall name :: !Stuck(Get(s, name), Want(desired, name))
  }

  /** A desired pod with FDB entries that is still to be created. */
  predicate Waiting(o: Option<Pod>, x: Pod) {
    x.routes.fdb != map[] && !Kept(o, Some(x))
  }

  function Pending(s: Recorded, desired: seq<Pod>): nat {
    if desired == [] then 0
    else (if Waiting(Get(s, desired[0].name), desired[0]) then 1 else 0) + Pending(s, desired[1..])
  }

  // ---------------------------------------------------------------- one pod during a pass

  lemma {:induction false} PrefixAddressed(o: Option<Pod>, acts: seq<Action>)
    requires RunPod(o, acts).Done? && (o.Some? ==> o.value.addressed)
    ensures RunPod(o, acts).pod.Some? ==> RunPod(o, acts).pod.value.addressed
    decreases |acts|
  {
    if acts != [] {
      PrefixAddressed(Do(o, acts[0]).pod, acts[1..]);
    }
  }

  /** A part of a plan for a remote list that removes nothing stays within what is desired, and
      one executed without removals leaves every surplus. */
  lemma PartRemote(a: seq<string>, b: seq<string>, ops: seq<ListOp>, k: nat)
    requires Transforms(ops, a, b) && k <= |ops|
    ensures (forall v :: multiset(a)[v] <= multiset(b)[v]) ==>
      forall v :: multiset(RunList(a, ops[..k]))[v] <= multiset(b)[v]
    ensures !Removes(ops[..k]) ==> forall v :: multiset(a)[v] > multiset(b)[v] ==>
      multiset(RunList(a, ops[..k]))[v] == multiset(a)[v]
  {
    assert ops == ops[..k] + ops[k..];
    forall v ensures multiset(a)[v] <= multiset(b)[v] ==> multiset(RunList(a, ops[..k]))[v] <= multiset(b)[v]
      ensures !Removes(ops[..k]) && multiset(a)[v] > multiset(b)[v] ==> multiset(RunList(a, ops[..k]))[v] == multiset(a)[v]
    {
      NeverBoth(ops, a, b, v);
      RunCount(a, ops[..k], v);
      assert multiset(ops)[Add(v)] == multiset(ops[..k])[Add(v)] + multiset(ops[k..])[Add(v)];
    }
  }

  lemma LosesRemoteIff(from: RouteSet, to: RouteSet)
    ensures LosesRemote(from, to) <==> exists v :: multiset(from.remote)[v] > multiset(to.remote)[v]
  {}

  lemma PartLoses(from: RouteSet, to: RouteSet, ops: RouteOps, k: nat)
    requires Turns(ops, from, to) && k <= |ops.local| + |ops.remote| + |ops.fdb|
    ensures !LosesRemote(from, to) ==> !LosesRemote(RunRouteSet(from, Part(ops, k)), to)
    ensures LosesRemote(from, to) && !Removes(Part(ops, k).remote) ==> LosesRemote(RunRouteSet(from, Part(ops, k)), to)
  {
    var mid := RunRouteSet(from, Part(ops, k));
    PartRemote(from.remote, to.remote, ops.remote, |Part(ops, k).remote|);
    LosesRemoteIff(from, to);
    LosesRemoteIff(mid, to);
  }

  /** Routes planned for `q` and partly executed on `p`: the pod is kept, and no route is newly in
      the way; nor, if the IP was known, does one get out of the way. */
  lemma KeptLoses(p: Pod, q: Pod, x: Pod, acts: seq<Action>, k: nat)
    requires Rerouted(acts, q, x) && q.routes == p.routes && SameBox(p, x)
    requires k <= |acts| && RunPod(Some(p), acts[..k]).Done?
    ensures var o := RunPod(Some(p), acts[..k]).pod;
      && Kept(o, Some(x))
      && (!LosesRemote(p.routes, x.routes) ==> !LosesRemote(o.value.routes, x.routes))
      && (q.addressed && LosesRemote(p.routes, x.routes) ==> LosesRemote(o.value.routes, x.routes))
  {
    var ops :| Turns(ops, q.routes, x.routes) && acts == RouteActs(q, ops);
    RouteActsPart(q, ops, k);
    RunRoutes(p, q, Part(ops, k));
    PartLoses(p.routes, x.routes, ops, k);
  }

  lemma BareLosesNothing(x: RouteSet)
    ensures !LosesRemote(NO_ROUTES, x)
  {}

  /** During a pass a kept pod stays kept, no pod gets stuck, and none whose IP was known gets unstuck. */
  lemma PodDuringPass(name: string, o: Option<Pod>, x: Option<Pod>, acts: seq<Action>, k: nat)
    requires Named(name, o, x) && PodPlan(acts, name, o, x)
    requires k <= |acts| && RunPod(o, acts[..k]).Done?
    ensures Kept(o, x) ==> Kept(RunPod(o, acts[..k]).pod, x)
    ensures !Stuck(o, x) ==> !Stuck(RunPod(o, acts[..k]).pod, x)
    ensures Blocking(o, x) ==> Stuck(RunPod(o, acts[..k]).pod, x)
  {
    if k == 0 {
      assert acts[..0] == [];
    } else if Kept(o, x) {
      KeptLoses(o.value, o.value, x.value, acts, k);
    } else if x.Some? && o == None {
      CreatedDuringPass(x.value, acts, k);
    } else if x.Some? {
      ReplacedDuringPass(o.value, x.value, acts, k);
    } else if o.Some? {
      assert acts[..1] == acts;
    }
  }

  lemma CreatedDuringPass(x: Pod, acts: seq<Action>, k: nat)
    requires PodPlan(acts, x.name, None, Some(x)) && 0 < k <= |acts| && RunPod(None, acts[..k]).Done?
    ensures var o := RunPod(None, acts[..k]).pod; Kept(o, Some(x)) && !Stuck(o, Some(x))
  {
    var bare := x.(routes := NO_ROUTES);
    RunCreated(bare, acts, k);
    BareDuringPass(bare, x, acts[1..], k - 1, RunPod(None, acts[..k]).pod);
  }

  lemma BareDuringPass(bare: Pod, x: Pod, acts: seq<Action>, k: nat, o: Option<Pod>)
    requires bare == x.(routes := NO_ROUTES) && Rerouted(acts, bare, x)
    requires k <= |acts| && RunPod(Some(bare.(addressed := true)), acts[..k]) == Done(o)
    ensures Kept(o, Some(x)) && !Stuck(o, Some(x))
  {
    KeptLoses(bare.(addressed := true), bare, x, acts, k);
    BareLosesNothing(x.routes);
  }

  lemma ReplacedDuringPass(p: Pod, x: Pod, acts: seq<Action>, k: nat)
    requires acts == [Delete(x.name), Create(x)] && 0 < k <= 2 && RunPod(Some(p), acts[..k]).Done?
    ensures !Stuck(RunPod(Some(p), acts[..k]).pod, Some(x))
  {
    if k == 1 {
      assert acts[..1] == [Delete(x.name)];
      RunDelete(p, x.name);
    } else {
      assert acts[..2] == acts;
      RunReplace(p, x);
    }
  }

  // ---------------------------------------------------------------- one pass

  lemma PassPod(before: Recorded, desired: seq<Pod>, acts: seq<Action>, done: nat, after: Recorded, name: string)
    requires WellNamed(before, desired) && Pass(before, desired, acts, done, after)
    ensures Kept(Get(before, name), Want(desired, name)) ==> Kept(Get(after, name), Want(desired, name))
    ensures !Stuck(Get(before, name), Want(desired, name)) ==> !Stuck(Get(after, name), Want(desired, name))
    ensures Blocking(Get(before, name), Want(desired, name)) ==> Blocking(Get(after, name), Want(desired, name))
  {
    NamedAt(before, desired, name);
    Project(before, acts[..done], name);
    var j := OfPrefix(acts, done, name);
    PodDuringPass(name, Get(before, name), Want(desired, name), Of(acts, name), j);
    if Blocking(Get(before, name), Want(desired, name)) {
      PrefixAddressed(Get(before, name), Of(acts, name)[..j]);
    }
  }

  lemma StopsAt(o: Option<Pod>, acts: seq<Action>, j: nat)
    requires j < |acts| && RunPod(o, acts[..j]).Done? && Do(RunPod(o, acts[..j]).pod, acts[j]) == Abort
    ensures RunPod(o, acts) == Abort
  {
    var mid, rest := RunPod(o, acts[..j]).pod, acts[j..];
    assert acts == acts[..j] + rest;
    RunPodConcat(o, acts[..j], rest);
    assert rest[0] == acts[j];
    assert RunPod(mid, rest) == Abort;
  }

  /** A kept pod whose FDB map has to change, but whose IP is not known yet. */
  predicate Unready(o: Option<Pod>, x: Pod) {
    Kept(o, Some(x)) && !o.value.addressed && o.value.routes.fdb != x.routes.fdb
  }

  lemma NotFirst(x: Pod, acts: seq<Action>, j: nat)
    requires PodPlan(acts, x.name, None, Some(x)) && j < |acts|
    requires RunPod(None, acts[..j]).Done? && Do(RunPod(None, acts[..j]).pod, acts[j]) == Abort
    ensures j > 0
  {}

  /** A pod at which a pass ends does not block it: its IP is not known yet, or it just got created. */
  lemma PodStops(name: string, o: Option<Pod>, x: Option<Pod>, acts: seq<Action>, j: nat)
    requires Named(name, o, x) && PodPlan(acts, name, o, x) && !Blocking(o, x) && j < |acts|
    requires RunPod(o, acts[..j]).Done? && Do(RunPod(o, acts[..j]).pod, acts[j]) == Abort
    ensures x.Some?
    ensures Unready(o, x.value) || (Waiting(o, x.value) && !Waiting(RunPod(o, acts[..j]).pod, x.value))
  {
    StopsAt(o, acts, j);
    RunsIff(name, o, x, acts);
    if o == None {
      NotFirst(x.value, acts, j);
      CreatedDuringPass(x.value, acts, j);
    }
  }

  /** A pass that ends early, with no pod blocking it, came to a pod whose IP is not known yet, or got
      at least one waiting pod created. */
  lemma EarlyEnd(before: Recorded, desired: seq<Pod>, acts: seq<Action>, done: nat, after: Recorded) returns (x: Pod)
    requires WellNamed(before, desired) && Pass(before, desired, acts, done, after) && done < |acts|
    requires forall name :: !Blocking(Get(before, name), Want(desired, name))
    ensures x in desired && Want(desired, x.name) == Some(x)
    ensures Unready(Get(before, x.name), x) || (Waiting(Get(before, x.name), x) && !Waiting(Get(after, x.name), x))
  {
    var t := Target(acts[done]);
    var j := OfPrefixes(acts, done, t);
    NamedAt(before, desired, t);
    WantIff(desired, t);
    Project(before, acts[..done], t);
    PodStops(t, Get(before, t), Want(desired, t), Of(acts, t), j);
    x := Want(desired, t).value;
  }

  lemma {:induction false} PendingDrops(before: Recorded, after: Recorded, desired: seq<Pod>)
    requires forall y :: y in desired && Waiting(Get(after, y.name), y) ==> Waiting(Get(before, y.name), y)
    ensures Pending(after, desired) <= Pending(before, desired)
    ensures (exists x :: x in desired && Waiting(Get(before, x.name), x) && !Waiting(Get(after, x.name), x)) ==>
      Pending(after, desired) < Pending(before, desired)
  {
    if desired != [] {
      PendingDrops(before, after, desired[1..]);
    }
  }

  /** No pod is newly waiting after a pass. */
  lemma WaitingBefore(before: Recorded, desired: seq<Pod>, acts: seq<Action>, done: nat, after: Recorded)
    requires Distinct(Names(desired)) && WellNamed(before, desired) && Pass(before, desired, acts, done, after)
    ensures forall y :: y in desired && Waiting(Get(after, y.name), y) ==> Waiting(Get(before, y.name), y)
  {
    forall y | y in desired && Waiting(Get(after, y.name), y) ensures Waiting(Get(before, y.name), y) {
      var i :| 0 <= i < |desired| && desired[i] == y;
      WantAt(desired, i);
      PassPod(before, desired, acts, done, after, y.name);
    }
  }

  /** After a pass over pods whose IPs are known, either everything desired is reached or fewer pods
      are waiting. */
  lemma PassProgress(before: Recorded, desired: seq<Pod>, acts: seq<Action>, done: nat, after: Recorded)
    requires Distinct(Names(desired)) && Sound(before, desired) && AllAddressed(before) && NoneStuck(before, desired)
    requires Pass(before, desired, acts, done, after)
    ensures MeetsAll(after, desired) || Pending(after, desired) < Pending(before, desired)
  {
    if done == |acts| {
      assert acts[..done] == acts;
      TidyReaches(before, desired, acts);
    } else {
      forall name ensures !Blocking(Get(before, name), Want(desired, name)) {
        assert !Stuck(Get(before, name), Want(desired, name));
      }
      var x := EarlyEnd(before, desired, acts, done, after);
      WaitingBefore(before, desired, acts, done, after);
      PendingDrops(before, after, desired);
    }
  }

  // ---------------------------------------------------------------- repeated passes

  /** What every pass keeps. */
  ghost predicate Sound(s: Recorded, desired: seq<Pod>) {
    WellNamed(s, desired) && AllTidy(s, desired)
  }

  /** Some pod makes every pass end early. */
  ghost predicate Blocked(s: Recorded, desired: seq<Pod>) {
    exists name :: Blocking(Get(s, name), Want(desired, name))
  }

  lemma AssignsAt(before: Recorded, after: Recorded, name: string)
    requires Assigns(before, after)
    ensures var o := Get(before, name);
      Get(after, name) == o || (o.Some? && Get(after, name) == Some(o.value.(addressed := true)))
  {}

  lemma AssignsKeeps(before: Recorded, after: Recorded, desired: seq<Pod>)
    requires Assigns(before, after)
    ensures Sound(before, desired) ==> Sound(after, desired)
    ensures NoneStuck(before, desired) <==> NoneStuck(after, desired)
    ensures Blocked(before, desired) ==> Blocked(after, desired)
    ensures MeetsAll(before, desired) <==> MeetsAll(after, desired)
  {}

  lemma {:induction false} AssignsPending(before: Recorded, after: Recorded, desired: seq<Pod>)
    requires Assigns(before, after)
    ensures Pending(after, desired) == Pending(before, desired)
  {
    if desired != [] {
      AssignsPending(before, after, desired[1..]);
      AssignsAt(before, after, desired[0].name);
    }
  }

  lemma OnePassKeeps(before: Recorded, desired: seq<Pod>, after: Recorded)
    requires Sound(before, desired) && OnePass(before, desired, after)
    ensures Sound(after, desired)
    ensures NoneStuck(before, desired) ==> NoneStuck(after, desired)
    ensures Blocked(before, desired) ==> Blocked(after, desired)
  {
    var acts, done :| Pass(before, desired, acts, done, after);
    StaysTidy(before, desired, acts, done);
    forall name ensures !Stuck(Get(before, name), Want(desired, name)) ==> !Stuck(Get(after, name), Want(desired, name))
      ensures Blocking(Get(before, name), Want(desired, name)) ==> Blocking(Get(after, name), Want(desired, name))
    {
      PassPod(before, desired, acts, done, after, name);
    }
  }

  lemma OnePassProgress(before: Recorded, desired: seq<Pod>, after: Recorded)
    requires Distinct(Names(desired)) && Sound(before, desired) && NoneStuck(before, desired)
    requires OnePass(before, desired, after)
    ensures Pending(after, desired) <= Pending(before, desired)
    ensures AllAddressed(before) ==> MeetsAll(after, desired) || Pending(after, desired) < Pending(before, desired)
    ensures MeetsAll(before, desired) ==> after == before
  {
    var acts, done :| Pass(before, desired, acts, done, after);
    WaitingBefore(before, desired, acts, done, after);
    PendingDrops(before, after, desired);
    if AllAddressed(before) {
      PassProgress(before, desired, acts, done, after);
    }
    if MeetsAll(before, desired) {
      EmptyPlanIff(before, desired, acts);
      assert acts[..done] == [];
    }
  }

  /** The number of passes that find every pod with its IP. */
  ghost function AddressedPasses(listed: seq<Recorded>): nat {
    if listed == [] then 0 else (if AllAddressed(listed[0]) then 1 else 0) + AddressedPasses(listed[1..])
  }

  lemma PassesRest(states: seq<Recorded>, listed: seq<Recorded>, desired: seq<Pod>)
    requires Passes(states, listed, desired) && listed != []
    ensures Passes(states[1..], listed[1..], desired)
    ensures Assigns(states[0], listed[0]) && OnePass(listed[0], desired, states[1])
  {}

  lemma {:induction false} Settles(states: seq<Recorded>, listed: seq<Recorded>, desired: seq<Pod>)
    requires Passes(states, listed, desired) && Distinct(Names(desired))
    requires Sound(states[0], desired) && NoneStuck(states[0], desired)
    requires MeetsAll(states[0], desired) || AddressedPasses(listed) > Pending(states[0], desired)
    ensures MeetsAll(states[|states| - 1], desired)
    decreases |listed|
  {
    if listed != [] {
      PassesRest(states, listed, desired);
      AssignsKeeps(states[0], listed[0], desired);
      AssignsPending(states[0], listed[0], desired);
      OnePassKeeps(listed[0], desired, states[1]);
      OnePassProgress(listed[0], desired, states[1]);
      Settles(states[1..], listed[1..], desired);
    }
  }

  lemma {:induction false} StaysBlocked(states: seq<Recorded>, listed: seq<Recorded>, desired: seq<Pod>)
    requires Passes(states, listed, desired) && Sound(states[0], desired) && Blocked(states[0], desired)
    ensures !MeetsAll(states[|states| - 1], desired)
    decreases |listed|
  {
    if listed == [] {
      var name :| Blocking(Get(states[0], name), Want(desired, name));
      assert !Meets(Get(states[0], name), Want(desired, name));
    } else {
      PassesRest(states, listed, desired);
      AssignsKeeps(states[0], listed[0], desired);
      OnePassKeeps(listed[0], desired, states[1]);
      StaysBlocked(states[1..], listed[1..], desired);
    }
  }

  lemma StuckBlocks(s: Recorded, desired: seq<Pod>)
    requires AllAddressed(s) && !NoneStuck(s, desired)
    ensures Blocked(s, desired)
  {}

  lemma SettlesIff(states: seq<Recorded>, listed: seq<Recorded>, desired: seq<Pod>)
    requires Passes(states, listed, desired) && Distinct(Names(desired)) && Sound(states[0], desired)
    requires listed != [] && AllAddressed(listed[0]) && AddressedPasses(listed) > Pending(states[0], desired)
    ensures MeetsAll(states[|states| - 1], desired) <==> NoneStuck(states[0], desired)
  {
    if NoneStuck(states[0], desired) {
      Settles(states, listed, desired);
    } else {
      PassesRest(states, listed, desired);
      AssignsKeeps(states[0], listed[0], desired);
      StuckBlocks(listed[0], desired);
      OnePassKeeps(listed[0], desired, states[1]);
      StaysBlocked(states[1..], listed[1..], desired);
    }
  }

  lemma PassKept(before: Recorded, listed: Recorded, after: Recorded, desired: seq<Pod>)
    requires Sound(before, desired) && Assigns(before, listed) && OnePass(listed, desired, after)
    ensures Sound(after, desired)
  {
    AssignsKeeps(before, listed, desired);
    OnePassKeeps(listed, desired, after);
  }

  lemma {:induction false} PassesFrom(states: seq<Recorded>, listed: seq<Recorded>, desired: seq<Pod>, i: nat)
    requires Passes(states, listed, desired) && Sound(states[0], desired) && i <= |listed|
    ensures Passes(states[i..], listed[i..], desired) && Sound(states[i], desired)
    decreases i
  {
    if i == 0 {
      assert states[0..] == states && listed[0..] == listed;
    } else {
      PassesFrom(states, listed, desired, i - 1);
      DropOneMore(states, i - 1);
      DropOneMore(listed, i - 1);
      PassesRest(states[i - 1..], listed[i - 1..], desired);
      PassKept(states[i - 1], listed[i - 1], states[i], desired);
    }
  }

  /** Passes between which pods get their IPs: from a pass on that finds every pod with its IP, what is
      desired is reached if and only if no kept pod has to lose a remote route then. It is reached at the
      latest one pass after every pod with FDB entries that was missing or had to be replaced got
      created, not counting passes that find a pod without its IP; otherwise it never is. */
  lemma PassesSettleIff(states: seq<Recorded>, listed: seq<Recorded>, desired: seq<Pod>, i: nat)
    requires Passes(states, listed, desired) && Distinct(Names(desired)) && Sound(states[0], desired)
    requires i < |listed| && AllAddressed(listed[i]) && AddressedPasses(listed[i..]) > Pending(states[i], desired)
    ensures MeetsAll(states[|states| - 1], desired) <==> NoneStuck(states[i], desired)
    ensures MeetsAll(states[|states| - 1], desired) ==> LikeDesired(states[|states| - 1], desired)
  {
    PassesFrom(states, listed, desired, i);
    SettlesIff(states[i..], listed[i..], desired);
    if MeetsAll(states[|states| - 1], desired) {
      MeetsLikeDesired(states[|states| - 1], desired);
    }
  }
}

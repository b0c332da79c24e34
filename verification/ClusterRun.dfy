/** Executing the plan for the whole cluster: when it runs to its end, also for pods that move from
    one group to another, and what it reaches. */
module ClusterRun {
  import opened Api
  import opened Lists
  import opened Ordering
  import opened Routes
  import opened XfrmPod
  import opened XfrmPlan
  import opened XfrmEffect
  import opened XfrmRun
  import opened Cluster
  import opened ClusterPlan

  // ---------------------------------------------------------------- where a pod is, and is to be

  /** The group whose pods include one of that name. */
  function HomeOf(groups: seq<GroupState>, name: string): Option<string> {
    if groups == [] then None
    else if Want(GroupPods(groups[0]), name).Some? then Some(groups[0].ref)
    else HomeOf(groups[1..], name)
  }

  predicate AtHome(groups: seq<GroupState>, g: GroupState, name: string) {
    Want(GroupPods(g), name).Some? && Want(AllPods(groups), name) == Want(GroupPods(g), name)
  }

  lemma {:induction false} HomeIs(groups: seq<GroupState>, name: string)
    ensures match HomeOf(groups, name)
      case None => (forall g :: g in groups ==> Want(GroupPods(g), name).None?) && Want(AllPods(groups), name).None?
      case Some(ref) => exists g :: g in groups && g.ref == ref && AtHome(groups, g, name)
  {
    if groups != [] {
      WantConcat(GroupPods(groups[0]), AllPods(groups[1..]), name);
      HomeIs(groups[1..], name);
      if Want(GroupPods(groups[0]), name).Some? {
        assert groups[0] in groups && AtHome(groups, groups[0], name);
      } else if HomeOf(groups, name).Some? {
        var g :| g in groups[1..] && Some(g.ref) == HomeOf(groups, name) && AtHome(groups[1..], g, name);
        assert g in groups && AtHome(groups, g, name);
      }
    }
  }

  /** A pod has one home in a state. */
  lemma OneHome(groups: seq<GroupState>, g: GroupState, name: string)
    requires UniqueNames(groups) && g in groups && Want(GroupPods(g), name).Some?
    ensures HomeOf(groups, name) == Some(g.ref)
  {
    HomeIs(groups, name);
    WantIff(GroupPods(g), name);
    var h :| h in groups && Some(h.ref) == HomeOf(groups, name) && AtHome(groups, h, name);
    WantIff(GroupPods(h), name);
  }

  lemma SharedUnique(desired: seq<GroupState>, current: seq<GroupState>)
    requires UniqueNames(desired)
    ensures UniqueNames(Shared(desired, current))
  {
    var shared := Shared(desired, current);
    forall g | g in shared ensures g in desired {
      SharedIff(desired, current, g);
    }
    Subset(shared, desired);
  }

  lemma Subset(some: seq<GroupState>, all: seq<GroupState>)
    requires UniqueNames(all) && forall g :: g in some ==> g in all
    ensures UniqueNames(some)
  {}

  /** Recorded in one group, and desired in another one that there is. */
  predicate Moved(desired: seq<GroupState>, current: seq<GroupState>, name: string) {
    var from, to := HomeOf(current, name), HomeOf(Shared(desired, current), name);
    from.Some? && to.Some? && from != to
  }

  /** The group a pod leaves is still desired and comes before the one it goes to. */
  predicate InOrder(desired: seq<GroupState>, current: seq<GroupState>, name: string)
    requires Moved(desired, current, name)
  {
    Position(desired, HomeOf(current, name).value) < Position(desired, HomeOf(Shared(desired, current), name).value)
  }

  // ---------------------------------------------------------------- what is planned for a name

  predicate Silent(desired: seq<GroupState>, c: GroupState, name: string) {
    Want(GroupPods(c), name).None? && Want(GoalOf(desired, c), name).None?
  }

  /** The plan of the last group, on one pod. */
  lemma LastStage(acts: seq<Action>, desired: seq<GroupState>, cs: seq<GroupState>, name: string) returns (k: nat)
    requires cs != [] && Staged(acts, desired, cs)
    ensures k <= |acts| && Staged(acts[..k], desired, cs[..|cs| - 1])
    ensures Of(acts, name) == Of(acts[..k], name) + Of(acts[k..], name)
    ensures var c := cs[|cs| - 1];
      PodPlan(Of(acts[k..], name), name, Want(GroupPods(c), name), Want(GoalOf(desired, c), name))
  {
    var n := |cs| - 1;
    k :| 0 <= k <= |acts| && Staged(acts[..k], desired, cs[..n])
      && IsPlan(acts[k..], GroupPods(cs[n]), GoalOf(desired, cs[n]));
    assert acts == acts[..k] + acts[k..];
    OfConcat(acts[..k], acts[k..], name);
  }

  lemma SilentLast(acts: seq<Action>, desired: seq<GroupState>, cs: seq<GroupState>, name: string)
      returns (before: seq<Action>)
    requires cs != [] && Staged(acts, desired, cs) && Silent(desired, cs[|cs| - 1], name)
    ensures Staged(before, desired, cs[..|cs| - 1]) && Of(acts, name) == Of(before, name)
  {
    var k := LastStage(acts, desired, cs, name);
    before := acts[..k];
    assert Of(acts[k..], name) == [] && Of(before, name) + [] == Of(before, name);
  }

  lemma {:induction false} NoStage(acts: seq<Action>, desired: seq<GroupState>, cs: seq<GroupState>, name: string)
    requires Staged(acts, desired, cs) && forall c :: c in cs ==> Silent(desired, c, name)
    ensures Of(acts, name) == []
    decreases |cs|
  {
    if cs != [] {
      var k := LastStage(acts, desired, cs, name);
      NoStage(acts[..k], desired, cs[..|cs| - 1], name);
      assert Silent(desired, cs[|cs| - 1], name);
      assert Of(acts[k..], name) == [];
    }
  }

  /** No groups but the ones at these places have to do with the name. */
  ghost predicate SilentBut(desired: seq<GroupState>, cs: seq<GroupState>, but: set<nat>, name: string) {
    forall l :: 0 <= l < |cs| && l !in but ==> Silent(desired, cs[l], name)
  }

  lemma SilentPrefix(desired: seq<GroupState>, cs: seq<GroupState>, but: set<nat>, name: string)
    requires cs != [] && SilentBut(desired, cs, but, name)
    ensures SilentBut(desired, cs[..|cs| - 1], but, name) && SilentBut(desired, cs[..|cs| - 1], but - {|cs| - 1}, name)
    ensures |cs| - 1 !in but ==> Silent(desired, cs[|cs| - 1], name)
  {}

  lemma SilentAll(desired: seq<GroupState>, cs: seq<GroupState>, name: string)
    requires SilentBut(desired, cs, {}, name)
    ensures forall c :: c in cs ==> Silent(desired, c, name)
  {}

  /** Only one group knows the name: the actions on it are that group's. */
  lemma {:induction false} OneStage(acts: seq<Action>, desired: seq<GroupState>, cs: seq<GroupState>, i: nat,
                                    name: string)
    requires Staged(acts, desired, cs) && i < |cs| && SilentBut(desired, cs, {i}, name)
    ensures PodPlan(Of(acts, name), name, Want(GroupPods(cs[i]), name), Want(GoalOf(desired, cs[i]), name))
    decreases |cs|
  {
    var n := |cs| - 1;
    var rest := cs[..n];
    SilentPrefix(desired, cs, {i}, name);
    if i == n {
      var k := LastStage(acts, desired, cs, name);
      assert {i} - {n} == {};
      SilentAll(desired, rest, name);
      NoStage(acts[..k], desired, rest, name);
      assert [] + Of(acts[k..], name) == Of(acts[k..], name);
    } else {
      var before := SilentLast(acts, desired, cs, name);
      assert rest[i] == cs[i];
      OneStage(before, desired, rest, i, name);
    }
  }

  /** The pod is deleted first and created then, or the other way around. */
  ghost predicate MovePlan(acts: seq<Action>, name: string, x: Pod, deletedFirst: bool) {
    && acts != []
    && if deletedFirst then acts[0] == Delete(name) && PodPlan(acts[1..], name, None, Some(x))
       else acts[|acts| - 1] == Delete(name) && PodPlan(acts[..|acts| - 1], name, None, Some(x))
  }

  /** Groups at the end that have nothing to do with the name can be left out. */
  lemma {:induction false} SilentTail(acts: seq<Action>, desired: seq<GroupState>, cs: seq<GroupState>,
                                      kept: seq<GroupState>, name: string)
      returns (before: seq<Action>)
    requires Staged(acts, desired, cs) && kept <= cs && forall l :: |kept| <= l < |cs| ==> Silent(desired, cs[l], name)
    ensures Staged(before, desired, kept) && Of(acts, name) == Of(before, name)
    decreases |cs|
  {
    if |kept| == |cs| {
      assert kept == cs;
      before := acts;
    } else {
      var most := SilentLast(acts, desired, cs, name);
      before := SilentTail(most, desired, cs[..|cs| - 1], kept, name);
    }
  }

  ghost predicate GroupPlanned(acts: seq<Action>, desired: seq<GroupState>, c: GroupState, name: string) {
    PodPlan(acts, name, Want(GroupPods(c), name), Want(GoalOf(desired, c), name))
  }

  lemma LastTwo(acts: seq<Action>, desired: seq<GroupState>, rest: seq<GroupState>, c: GroupState, i: nat, name: string)
      returns (first: seq<Action>, last: seq<Action>)
    requires Staged(acts, desired, rest + [c]) && i < |rest| && SilentBut(desired, rest, {i}, name)
    ensures Of(acts, name) == first + last
    ensures GroupPlanned(first, desired, rest[i], name) && GroupPlanned(last, desired, c, name)
  {
    var cs := rest + [c];
    assert cs[..|cs| - 1] == rest;
    var k := LastStage(acts, desired, cs, name);
    first, last := Of(acts[..k], name), Of(acts[k..], name);
    OneStage(acts[..k], desired, rest, i, name);
  }

  /** Only two groups know the name: the actions on it are those of the one and then those of the other. */
  lemma InTurn(acts: seq<Action>, desired: seq<GroupState>, cs: seq<GroupState>, i: nat, j: nat, name: string)
      returns (first: seq<Action>, last: seq<Action>)
    requires Staged(acts, desired, cs) && i < j < |cs| && SilentBut(desired, cs, {i, j}, name)
    ensures Of(acts, name) == first + last
    ensures GroupPlanned(first, desired, cs[i], name) && GroupPlanned(last, desired, cs[j], name)
  {
    TakeOneMore(cs, j);
    var before := SilentTail(acts, desired, cs, cs[..j] + [cs[j]], name);
    SilentWithin(desired, cs, i, j, name);
    first, last := LastTwo(before, desired, cs[..j], cs[j], i, name);
  }

  lemma SilentWithin(desired: seq<GroupState>, cs: seq<GroupState>, i: nat, j: nat, name: string)
    requires i < j < |cs| && SilentBut(desired, cs, {i, j}, name)
    ensures SilentBut(desired, cs[..j], {i}, name)
  {}

  /** One group has the pod and the other one is to have it. */
  predicate Hands(desired: seq<GroupState>, from: GroupState, to: GroupState, name: string, x: Pod) {
    && Want(GroupPods(from), name).Some? && Want(GoalOf(desired, from), name).None?
    && Want(GroupPods(to), name).None? && Want(GoalOf(desired, to), name) == Some(x)
  }

  lemma TwoStages(acts: seq<Action>, desired: seq<GroupState>, cs: seq<GroupState>, i: nat, j: nat, name: string,
                  x: Pod)
    requires Staged(acts, desired, cs) && i < |cs| && j < |cs| && i != j
    requires SilentBut(desired, cs, {i, j}, name) && Hands(desired, cs[i], cs[j], name, x)
    ensures MovePlan(Of(acts, name), name, x, i < j)
  {
    if i < j {
      var first, last := InTurn(acts, desired, cs, i, j, name);
      HandsPlans(desired, cs[i], cs[j], name, x, first, last);
      Joined(first, last, name, x, true);
    } else {
      assert {j, i} == {i, j};
      var first, last := InTurn(acts, desired, cs, j, i, name);
      HandsPlans(desired, cs[i], cs[j], name, x, last, first);
      Joined(first, last, name, x, false);
    }
  }

  lemma HandsPlans(desired: seq<GroupState>, from: GroupState, to: GroupState, name: string, x: Pod,
                   gives: seq<Action>, takes: seq<Action>)
    requires Hands(desired, from, to, name, x)
    requires GroupPlanned(gives, desired, from, name) && GroupPlanned(takes, desired, to, name)
    ensures gives == [Delete(name)] && PodPlan(takes, name, None, Some(x))
  {}

  lemma Joined(first: seq<Action>, last: seq<Action>, name: string, x: Pod, deletedFirst: bool)
    requires if deletedFirst then first == [Delete(name)] && PodPlan(last, name, None, Some(x))
             else last == [Delete(name)] && PodPlan(first, name, None, Some(x))
    ensures MovePlan(first + last, name, x, deletedFirst)
  {}

  /** What a group has to do with a name. */
  lemma StageFacts(desired: seq<GroupState>, current: seq<GroupState>, c: GroupState, name: string)
    requires Prepared(desired, current) && c in current
    ensures Want(GroupPods(c), name).Some? <==> HomeOf(current, name) == Some(c.ref)
    ensures Want(GroupPods(c), name).Some? ==> Want(AllPods(current), name) == Want(GroupPods(c), name)
  {
    HomeIs(current, name);
    if Want(GroupPods(c), name).Some? {
      OneHome(current, c, name);
    }
    if HomeOf(current, name) == Some(c.ref) {
      var g :| g in current && g.ref == c.ref && AtHome(current, g, name);
      RefsTell(current, g, c);
    }
  }

  lemma GoalFacts(desired: seq<GroupState>, current: seq<GroupState>, c: GroupState, name: string)
    requires Prepared(desired, current) && c in current
    ensures Want(GoalOf(desired, c), name).Some? <==> HomeOf(Shared(desired, current), name) == Some(c.ref)
    ensures Want(GoalOf(desired, c), name).Some? ==> Want(Goal(desired, current), name) == Want(GoalOf(desired, c), name)
  {
    var shared := Shared(desired, current);
    HomeIs(shared, name);
    SharedUnique(desired, current);
    FindGroupIff(desired, c.ref);
    if Want(GoalOf(desired, c), name).Some? {
      var d := FindGroup(desired, c.ref).value;
      FoundIs(current, c);
      SharedIff(desired, current, d);
      OneHome(shared, d, name);
    }
    if HomeOf(shared, name) == Some(c.ref) {
      var g :| g in shared && g.ref == c.ref && AtHome(shared, g, name);
      SharedIff(desired, current, g);
      FoundIs(desired, g);
    }
  }

  /** The place of a pod's group in the order of the plan. */
  lemma HomeIndex(desired: seq<GroupState>, current: seq<GroupState>, name: string) returns (i: nat)
    requires Prepared(desired, current) && HomeOf(current, name).Some?
    ensures i < |Order(desired, current)| && Order(desired, current)[i] in current
    ensures HomeOf(current, name) == Some(Order(desired, current)[i].ref)
  {
    HomeIs(current, name);
    var g :| g in current && Some(g.ref) == HomeOf(current, name) && AtHome(current, g, name);
    OrderIff(desired, current, g);
    i :| 0 <= i < |Order(desired, current)| && Order(desired, current)[i] == g;
  }

  lemma GoalIndex(desired: seq<GroupState>, current: seq<GroupState>, name: string) returns (j: nat)
    requires Prepared(desired, current) && HomeOf(Shared(desired, current), name).Some?
    ensures j < |Order(desired, current)| && Order(desired, current)[j] in current
    ensures HomeOf(Shared(desired, current), name) == Some(Order(desired, current)[j].ref)
    ensures FindGroup(desired, Order(desired, current)[j].ref).Some?
  {
    var shared := Shared(desired, current);
    HomeIs(shared, name);
    var g :| g in shared && Some(g.ref) == HomeOf(shared, name) && AtHome(shared, g, name);
    SharedIff(desired, current, g);
    FindGroupIff(current, g.ref);
    FindGroupIff(desired, g.ref);
    var c := FindGroup(current, g.ref).value;
    OrderIff(desired, current, c);
    j :| 0 <= j < |Order(desired, current)| && Order(desired, current)[j] == c;
  }

  /** Groups that neither have the pod nor are to have it. */
  lemma OthersSilent(desired: seq<GroupState>, current: seq<GroupState>, name: string, l: nat)
    requires Prepared(desired, current) && l < |Order(desired, current)|
    requires HomeOf(current, name) != Some(Order(desired, current)[l].ref)
    requires HomeOf(Shared(desired, current), name) != Some(Order(desired, current)[l].ref)
    ensures Silent(desired, Order(desired, current)[l], name)
  {
    var c := Order(desired, current)[l];
    assert c in Order(desired, current);
    OrderIff(desired, current, c);
    StageFacts(desired, current, c, name);
    GoalFacts(desired, current, c, name);
  }

  lemma OrderRefs(desired: seq<GroupState>, current: seq<GroupState>, i: nat, j: nat)
    requires UniqueRefs(desired) && UniqueRefs(current) && i < |Order(desired, current)|
    requires j < |Order(desired, current)| && i != j
    ensures Order(desired, current)[i].ref != Order(desired, current)[j].ref
  {
    OrderAscends(desired, current, if i < j then i else j, if i < j then j else i);
  }

  /** The one group a pod that does not move has to do with. */
  lemma OnlyStage(desired: seq<GroupState>, current: seq<GroupState>, name: string) returns (i: nat)
    requires Prepared(desired, current) && !Moved(desired, current, name)
    requires HomeOf(current, name).Some? || HomeOf(Shared(desired, current), name).Some?
    ensures i < |Order(desired, current)| && Order(desired, current)[i] in current
    ensures SilentBut(desired, Order(desired, current), {i}, name)
    ensures var ref := Some(Order(desired, current)[i].ref);
      && (HomeOf(current, name).None? || HomeOf(current, name) == ref)
      && (HomeOf(Shared(desired, current), name).None? || HomeOf(Shared(desired, current), name) == ref)
  {
    var cs := Order(desired, current);
    if HomeOf(current, name).Some? {
      i := HomeIndex(desired, current, name);
    } else {
      i := GoalIndex(desired, current, name);
    }
    AllOthersSilent(desired, current, name, i);
  }

  lemma AllOthersSilent(desired: seq<GroupState>, current: seq<GroupState>, name: string, i: nat)
    requires Prepared(desired, current) && i < |Order(desired, current)|
    requires HomeOf(current, name) in {None, Some(Order(desired, current)[i].ref)}
    requires HomeOf(Shared(desired, current), name) in {None, Some(Order(desired, current)[i].ref)}
    ensures SilentBut(desired, Order(desired, current), {i}, name)
  {
    forall l | 0 <= l < |Order(desired, current)| && l !in {i}
      ensures Silent(desired, Order(desired, current)[l], name)
    {
      OrderRefs(desired, current, i, l);
      OthersSilent(desired, current, name, l);
    }
  }

  lemma NoneSilent(desired: seq<GroupState>, current: seq<GroupState>, name: string)
    requires Prepared(desired, current) && HomeOf(current, name).None? && HomeOf(Shared(desired, current), name).None?
    ensures forall c :: c in Order(desired, current) ==> Silent(desired, c, name)
  {
    var cs := Order(desired, current);
    forall c | c in cs ensures Silent(desired, c, name) {
      var l :| 0 <= l < |cs| && cs[l] == c;
      OthersSilent(desired, current, name, l);
    }
  }

  lemma HomeWants(groups: seq<GroupState>, name: string)
    ensures HomeOf(groups, name).None? <==> Want(AllPods(groups), name).None?
  {
    HomeIs(groups, name);
  }

  /** What is planned for a pod that stays in its group, comes or goes. */
  lemma PlannedAtHome(acts: seq<Action>, desired: seq<GroupState>, current: seq<GroupState>, name: string)
    requires Prepared(desired, current) && Staged(acts, desired, Order(desired, current))
    requires !Moved(desired, current, name)
    ensures PodPlan(Of(acts, name), name, Want(AllPods(current), name), Want(Goal(desired, current), name))
  {
    HomeWants(current, name);
    HomeWants(Shared(desired, current), name);
    if HomeOf(current, name).None? && HomeOf(Shared(desired, current), name).None? {
      NoneSilent(desired, current, name);
      NoStage(acts, desired, Order(desired, current), name);
    } else {
      var i := OnlyStage(desired, current, name);
      var c := Order(desired, current)[i];
      OneStage(acts, desired, Order(desired, current), i, name);
      StageFacts(desired, current, c, name);
      GoalFacts(desired, current, c, name);
    }
  }

  /** The two groups a pod that moves has to do with. */
  lemma MoveStages(desired: seq<GroupState>, current: seq<GroupState>, name: string) returns (i: nat, j: nat)
    requires Prepared(desired, current) && Moved(desired, current, name)
    ensures i < |Order(desired, current)| && j < |Order(desired, current)| && i != j
    ensures SilentBut(desired, Order(desired, current), {i, j}, name)
    ensures i < j <==> InOrder(desired, current, name)
    ensures Want(Goal(desired, current), name).Some?
    ensures var cs, x := Order(desired, current), Want(Goal(desired, current), name).value;
      Hands(desired, cs[i], cs[j], name, x)
  {
    i := HomeIndex(desired, current, name);
    j := GoalIndex(desired, current, name);
    assert i != j;
    HandsOver(desired, current, name, Order(desired, current)[i], Order(desired, current)[j]);
    MoveSilent(desired, current, name, i, j);
    OrderAscends(desired, current, if i < j then i else j, if i < j then j else i);
  }

  lemma MoveSilent(desired: seq<GroupState>, current: seq<GroupState>, name: string, i: nat, j: nat)
    requires Prepared(desired, current) && i < |Order(desired, current)| && j < |Order(desired, current)|
    requires HomeOf(current, name) == Some(Order(desired, current)[i].ref)
    requires HomeOf(Shared(desired, current), name) == Some(Order(desired, current)[j].ref)
    ensures SilentBut(desired, Order(desired, current), {i, j}, name)
  {
    forall l | 0 <= l < |Order(desired, current)| && l !in {i, j}
      ensures Silent(desired, Order(desired, current)[l], name)
    {
      OrderRefs(desired, current, i, l);
      OrderRefs(desired, current, j, l);
      OthersSilent(desired, current, name, l);
    }
  }

  lemma HandsOver(desired: seq<GroupState>, current: seq<GroupState>, name: string, from: GroupState, to: GroupState)
    requires Prepared(desired, current) && from in current && to in current && from.ref != to.ref
    requires HomeOf(current, name) == Some(from.ref) && HomeOf(Shared(desired, current), name) == Some(to.ref)
    ensures Want(Goal(desired, current), name).Some?
    ensures Hands(desired, from, to, name, Want(Goal(desired, current), name).value)
  {
    StageFacts(desired, current, from, name);
    GoalFacts(desired, current, from, name);
    StageFacts(desired, current, to, name);
    GoalFacts(desired, current, to, name);
  }

  /** What is planned for a pod that moves: its deletion comes first exactly when the group it leaves
      comes before the one it goes to. */
  lemma PlannedMove(acts: seq<Action>, desired: seq<GroupState>, current: seq<GroupState>, name: string)
    requires Prepared(desired, current) && Staged(acts, desired, Order(desired, current))
    requires Moved(desired, current, name)
    ensures Want(AllPods(current), name).Some? && Want(Goal(desired, current), name).Some?
    ensures MovePlan(Of(acts, name), name, Want(Goal(desired, current), name).value, InOrder(desired, current, name))
  {
    HomeWants(current, name);
    var i, j := MoveStages(desired, current, name);
    TwoStages(acts, desired, Order(desired, current), i, j, name, Want(Goal(desired, current), name).value);
  }

  // ---------------------------------------------------------------- when the plan runs to its end

  /** The pods of the groups there are, as recorded. */
  ghost predicate Shown(current: seq<GroupState>, s: Recorded) {
    forall name :: Want(AllPods(current), name).Some? ==> Want(AllPods(current), name) == Get(s, name)
  }

  /** A recorded pod of no group there is: nothing is ever planned to delete it. */
  predicate Orphan(current: seq<GroupState>, s: Recorded, name: string) {
    name in s && Want(AllPods(current), name).None?
  }

  lemma ListedAt(current: seq<GroupState>, s: Recorded, name: string)
    requires Shown(current, s)
    ensures !Orphan(current, s, name) ==> Want(AllPods(current), name) == Get(s, name)
  {}

  /** The condition on one name: a pod that moves leaves a group that is still desired and comes
      earlier, and needs no FDB entries; for any other pod its plan runs to its end. */
  predicate Ready(desired: seq<GroupState>, current: seq<GroupState>, name: string) {
    var x := Want(Goal(desired, current), name);
    if Moved(desired, current, name) then InOrder(desired, current, name) && x.Some? && x.value.routes.fdb == map[]
    else Runnable(Want(AllPods(current), name), x)
  }

  /** The same with orphans: no pod may be desired under the name of one. */
  predicate Clear(desired: seq<GroupState>, current: seq<GroupState>, s: Recorded, name: string) {
    if Orphan(current, s, name) then Want(Goal(desired, current), name).None? else Ready(desired, current, name)
  }

  /** A deletion followed by a creation runs to its end exactly when no FDB entries are needed, and
      leaves what is desired; a creation over the pod fails at once. */
  lemma MoveRuns(acts: seq<Action>, name: string, p: Pod, x: Pod, deletedFirst: bool)
    requires MovePlan(acts, name, x, deletedFirst) && Named(name, Some(p), Some(x))
    ensures RunPod(Some(p), acts).Done? <==> deletedFirst && x.routes.fdb == map[]
    ensures RunPod(Some(p), acts).Done? ==> Meets(RunPod(Some(p), acts).pod, Some(x))
  {
    if deletedFirst {
      assert RunPod(Some(p), acts) == RunPod(None, acts[1..]);
      RunsIff(name, None, Some(x), acts[1..]);
      if RunPod(None, acts[1..]).Done? {
        ReachesIff(name, None, Some(x), acts[1..]);
      }
    } else {
      CreatesFirst(acts, name, x);
    }
  }

  lemma CreatesFirst(acts: seq<Action>, name: string, x: Pod)
    requires MovePlan(acts, name, x, false)
    ensures acts[0].Create?
  {}

  lemma NameRuns(s: Recorded, desired: seq<GroupState>, current: seq<GroupState>, acts: seq<Action>, name: string)
    requires Prepared(desired, current) && Staged(acts, desired, Order(desired, current))
    requires Shown(current, s) && WellNamed(s, Goal(desired, current)) && !Orphan(current, s, name)
    ensures RunPod(Get(s, name), Of(acts, name)).Done? <==> Ready(desired, current, name)
    ensures Moved(desired, current, name) && Ready(desired, current, name) ==>
      Meets(RunPod(Get(s, name), Of(acts, name)).pod, Want(Goal(desired, current), name))
  {
    NamedAt(s, Goal(desired, current), name);
    ListedAt(current, s, name);
    if Moved(desired, current, name) {
      MoveRunsIff(desired, current, acts, name);
    } else {
      PlannedAtHome(acts, desired, current, name);
      RunsIff(name, Get(s, name), Want(Goal(desired, current), name), Of(acts, name));
    }
  }

  /** What is planned under the name of an orphan: nothing, or a creation over it. */
  lemma OrphanPlanned(s: Recorded, desired: seq<GroupState>, current: seq<GroupState>, acts: seq<Action>, name: string)
    requires Prepared(desired, current) && Staged(acts, desired, Order(desired, current)) && Orphan(current, s, name)
    ensures Of(acts, name) == [] <==> Want(Goal(desired, current), name).None?
    ensures Of(acts, name) != [] ==> Of(acts, name)[0].Create?
  {
    HomeWants(current, name);
    PlannedAtHome(acts, desired, current, name);
  }

  lemma OrphanRuns(s: Recorded, desired: seq<GroupState>, current: seq<GroupState>, acts: seq<Action>, name: string)
    requires Prepared(desired, current) && Staged(acts, desired, Order(desired, current)) && Orphan(current, s, name)
    ensures RunPod(Get(s, name), Of(acts, name)).Done? <==> Want(Goal(desired, current), name).None?
  {
    OrphanPlanned(s, desired, current, acts, name);
    if Of(acts, name) != [] {
      BlockedAtOnce(s[name], Of(acts, name));
    }
  }

  lemma BlockedAtOnce(p: Pod, acts: seq<Action>)
    requires acts != [] && acts[0].Create?
    ensures RunPod(Some(p), acts) == Abort
  {}

  lemma MoveRunsIff(desired: seq<GroupState>, current: seq<GroupState>, acts: seq<Action>, name: string)
    requires Prepared(desired, current) && Staged(acts, desired, Order(desired, current))
    requires Moved(desired, current, name)
    requires Named(name, Want(AllPods(current), name), Want(Goal(desired, current), name))
    ensures RunPod(Want(AllPods(current), name), Of(acts, name)).Done? <==> Ready(desired, current, name)
    ensures Ready(desired, current, name) ==>
      Meets(RunPod(Want(AllPods(current), name), Of(acts, name)).pod, Want(Goal(desired, current), name))
  {
    PlannedMove(acts, desired, current, name);
    var p, x := Want(AllPods(current), name).value, Want(Goal(desired, current), name).value;
    MoveRuns(Of(acts, name), name, p, x, InOrder(desired, current, name));
  }

  lemma ClearIff(s: Recorded, desired: seq<GroupState>, current: seq<GroupState>, acts: seq<Action>, name: string)
    requires Prepared(desired, current) && Staged(acts, desired, Order(desired, current))
    requires Shown(current, s) && WellNamed(s, Goal(desired, current))
    ensures RunPod(Get(s, name), Of(acts, name)).Done? <==> Clear(desired, current, s, name)
  {
    if Orphan(current, s, name) {
      OrphanRuns(s, desired, current, acts, name);
    } else {
      NameRuns(s, desired, current, acts, name);
    }
  }

  lemma PodsRunIff(s: Recorded, desired: seq<GroupState>, current: seq<GroupState>, acts: seq<Action>)
    requires Prepared(desired, current) && Staged(acts, desired, Order(desired, current))
    requires Shown(current, s) && WellNamed(s, Goal(desired, current))
    ensures Run(s, acts).Some? <==> forall name :: Clear(desired, current, s, name)
  {
    if Run(s, acts).Some? {
      forall name ensures Clear(desired, current, s, name) {
        ClearIff(s, desired, current, acts, name);
        Project(s, acts, name);
      }
    } else {
      var name := ProjectStop(s, acts);
      ClearIff(s, desired, current, acts, name);
    }
  }

  // ---------------------------------------------------------------- configuration overrides

  /** Executing a plan; an override is a request to a restctl pod, which must be there. */
  function Execute(s: Recorded, acts: seq<ClusterAction>): Option<Recorded>
    decreases |acts|
  {
    if acts == [] then Some(s)
    else
      match acts[0]
      case Override(name, _) => if name in s then Execute(s, acts[1..]) else None
      case OnPod(a) =>
        match DoAt(s, a)
        case None => None
        case Some(after) => Execute(after, acts[1..])
  }

  /** No override meets a missing pod: where the plan comes to it, the pod is there. */
  ghost predicate OverridesMeet(s: Recorded, acts: seq<ClusterAction>) {
    forall i :: 0 <= i < |acts| && acts[i].Override? && Run(s, Pods(acts[..i])).Some? ==>
      acts[i].podName in Run(s, Pods(acts[..i])).value
  }

  lemma PodsNext(acts: seq<ClusterAction>, i: nat)
    requires i < |acts|
    ensures Pods(acts[..i + 1]) == Pods(acts[..i]) + (if acts[i].OnPod? then [acts[i].action] else [])
  {
    assert acts[..i + 1] == acts[..i] + [acts[i]];
    PodsConcat(acts[..i], [acts[i]]);
    assert [acts[i]][1..] == [];
  }

  /** What the first action leaves for the rest. */
  function AfterFirst(s: Recorded, a: ClusterAction): Option<Recorded> {
    match a
    case Override(_, _) => Some(s)
    case OnPod(action) => DoAt(s, action)
  }

  lemma RunRest(s: Recorded, acts: seq<ClusterAction>, i: nat)
    requires i < |acts| && AfterFirst(s, acts[0]).Some?
    ensures Run(s, Pods(acts[..i + 1])) == Run(AfterFirst(s, acts[0]).value, Pods(acts[1..][..i]))
  {
    var first := acts[..i + 1];
    assert first[0] == acts[0] && first[1..] == acts[1..][..i];
    if acts[0].OnPod? {
      assert Pods(first)[1..] == Pods(first[1..]);
    }
  }

  lemma RestMeets(s: Recorded, acts: seq<ClusterAction>)
    requires acts != [] && AfterFirst(s, acts[0]).Some?
    ensures OverridesMeet(s, acts) <==>
      (acts[0].Override? ==> acts[0].podName in s) && OverridesMeet(AfterFirst(s, acts[0]).value, acts[1..])
  {
    var rest, mid := acts[1..], AfterFirst(s, acts[0]).value;
    assert acts[..0] == [] && Run(s, Pods(acts[..0])) == Some(s);
    forall i | 0 <= i < |rest| ensures Run(s, Pods(acts[..i + 1])) == Run(mid, Pods(rest[..i])) && rest[i] == acts[i + 1] {
      RunRest(s, acts, i);
    }
    if OverridesMeet(s, acts) {
      forall i | 0 <= i < |rest| && rest[i].Override? && Run(mid, Pods(rest[..i])).Some?
        ensures rest[i].podName in Run(mid, Pods(rest[..i])).value
      {
        assert acts[i + 1].Override? && Run(s, Pods(acts[..i + 1])).Some?;
      }
    }
    if (acts[0].Override? ==> acts[0].podName in s) && OverridesMeet(mid, rest) {
      forall i | 0 <= i < |acts| && acts[i].Override? && Run(s, Pods(acts[..i])).Some?
        ensures acts[i].podName in Run(s, Pods(acts[..i])).value
      {
        if i > 0 {
          assert rest[i - 1] == acts[i];
        }
      }
    }
  }

  /** A plan runs to its end exactly when its pod actions do and every pod to be loaded is there where the
      plan comes to it. */
  lemma {:induction false} ExecutesIff(s: Recorded, acts: seq<ClusterAction>)
    ensures Execute(s, acts).Some? <==> Run(s, Pods(acts)).Some? && OverridesMeet(s, acts)
    ensures Execute(s, acts).Some? ==> Execute(s, acts) == Run(s, Pods(acts))
    decreases |acts|
  {
    if acts != [] {
      if acts[0].OnPod? {
        assert Pods(acts)[1..] == Pods(acts[1..]);
      }
      if AfterFirst(s, acts[0]).Some? {
        RestMeets(s, acts);
        ExecutesIff(AfterFirst(s, acts[0]).value, acts[1..]);
      }
    }
  }

  lemma KeptPair(desired: seq<GroupState>, current: seq<GroupState>, name: string)
      returns (c: GroupState, d: GroupState)
    requires name in KeptProxies(desired, current)
    ensures c in current && d in desired && FindGroup(desired, c.ref) == Some(d)
    ensures c.proxy.Some? && d.proxy.Some? && SameMeta(d.proxy.value, c.proxy.value) && c.proxy.value.name == name
  {
    c :| c in current && FindGroup(desired, c.ref).Some? && KeptProxy(FindGroup(desired, c.ref).value.proxy, c.proxy) != {}
      && c.proxy.value.name == name;
    FindGroupIff(desired, c.ref);
    d := FindGroup(desired, c.ref).value;
  }

  lemma ProxyWanted(groups: seq<GroupState>, g: GroupState)
    requires UniqueNames(groups) && g in groups && g.proxy.Some?
    ensures Want(GroupPods(g), g.proxy.value.name) == Some(g.proxy.value)
  {}

  /** A restctl pod that is kept is recorded and desired in the same group. */
  lemma KeptInBoth(desired: seq<GroupState>, current: seq<GroupState>, name: string) returns (p: Pod, x: Pod)
    requires Prepared(desired, current) && name in KeptProxies(desired, current)
    ensures !Moved(desired, current, name)
    ensures Want(AllPods(current), name) == Some(p) && Want(Goal(desired, current), name) == Some(x)
    ensures Plain(p) && Plain(x) && SameMeta(x, p)
  {
    var c, d := KeptPair(desired, current, name);
    p, x := c.proxy.value, d.proxy.value;
    ProxyWanted(current, c);
    ProxyWanted(desired, d);
    assert x.name == name;
    StageFacts(desired, current, c, name);
    GoalFacts(desired, current, c, name);
    assert WellFormed(c) && WellFormed(d);
  }

  /** Nothing is planned for it. */
  lemma KeptUntouched(s: Recorded, desired: seq<GroupState>, current: seq<GroupState>, acts: seq<Action>, name: string)
    requires Prepared(desired, current) && Staged(acts, desired, Order(desired, current))
    requires Shown(current, s) && WellNamed(s, Goal(desired, current))
    requires name in KeptProxies(desired, current)
    ensures name in s && Of(acts, name) == []
  {
    var p, x := KeptInBoth(desired, current, name);
    PlannedAtHome(acts, desired, current, name);
    NamedAt(s, Goal(desired, current), name);
    ListedAt(current, s, name);
    assert Get(s, name) == Some(p);
    PlainUntouched(name, p, x, Of(acts, name));
  }

  lemma PlainUntouched(name: string, p: Pod, x: Pod, acts: seq<Action>)
    requires Named(name, Some(p), Some(x)) && Plain(p) && Plain(x) && SameMeta(x, p)
    requires PodPlan(acts, name, Some(p), Some(x))
    ensures acts == []
  {}

  lemma InUnique(groups: seq<GroupState>, g: GroupState, p: Pod)
    requires UniqueNames(groups) && g in groups && p in GroupPods(g)
    ensures Want(GroupPods(g), p.name) == Some(p)
  {
    WantInNames(GroupPods(g), p.name);
    WantIff(GroupPods(g), p.name);
  }

  lemma GroundedMeets(s: Recorded, desired: seq<GroupState>, current: seq<GroupState>, acts: seq<ClusterAction>)
    requires Prepared(desired, current) && PlanFrom(acts, desired, current, Order(desired, current))
    requires Shown(current, s) && WellNamed(s, Goal(desired, current))
    ensures OverridesMeet(s, acts)
  {
    forall i | 0 <= i < |acts| && acts[i].Override? && Run(s, Pods(acts[..i])).Some?
      ensures acts[i].podName in Run(s, Pods(acts[..i])).value
    {
      if acts[i].podName in KeptProxies(desired, current) {
        KeptThere(s, desired, current, acts, i);
      } else {
        CreatedThere(s, acts, i);
      }
    }
  }

  lemma KeptThere(s: Recorded, desired: seq<GroupState>, current: seq<GroupState>, acts: seq<ClusterAction>, i: nat)
    requires Prepared(desired, current) && Staged(Pods(acts), desired, Order(desired, current))
    requires Shown(current, s) && WellNamed(s, Goal(desired, current))
    requires i < |acts| && acts[i].Override? && acts[i].podName in KeptProxies(desired, current)
    requires Run(s, Pods(acts[..i])).Some?
    ensures acts[i].podName in Run(s, Pods(acts[..i])).value
  {
    var name := acts[i].podName;
    KeptUntouched(s, desired, current, Pods(acts), name);
    UntouchedSoFar(s, acts, i, name);
  }

  lemma UntouchedSoFar(s: Recorded, acts: seq<ClusterAction>, i: nat, name: string)
    requires i <= |acts| && Of(Pods(acts), name) == [] && Run(s, Pods(acts[..i])).Some?
    ensures Get(Run(s, Pods(acts[..i])).value, name) == Get(s, name)
  {
    assert acts == acts[..i] + acts[i..];
    PodsConcat(acts[..i], acts[i..]);
    OfConcat(Pods(acts[..i]), Pods(acts[i..]), name);
    Project(s, Pods(acts[..i]), name);
  }

  lemma CreatedThere(s: Recorded, acts: seq<ClusterAction>, i: nat)
    requires i < |acts| && acts[i].Override? && JustCreated(acts, i, acts[i].podName) && Run(s, Pods(acts[..i])).Some?
    ensures acts[i].podName in Run(s, Pods(acts[..i])).value
  {
    var a := acts[i - 1].action;
    PodsNext(acts, i - 1);
    XfrmRun.RunConcat(s, Pods(acts[..i - 1]), [a]);
    var before := Run(s, Pods(acts[..i - 1])).value;
    assert [a][1..] == [] && Run(before, [a]) == DoAt(before, a);
  }

  // ---------------------------------------------------------------- main results

  /** The plan for the whole cluster runs to its end if and only if every pod that moves leaves a
      group that is still desired and comes before the one it goes to and needs no FDB entries, the
      plan of every other pod of a group there is runs to its end, and no pod is desired under the name
      of a recorded one of no group; no configuration override ever stands in its way. */
  lemma ClusterRunsIff(s: Recorded, desired: seq<GroupState>, current: seq<GroupState>, acts: seq<ClusterAction>)
    requires Prepared(desired, current) && PlanFrom(acts, desired, current, Order(desired, current))
    requires Shown(current, s) && WellNamed(s, Goal(desired, current))
    ensures Execute(s, acts).Some? <==> forall name :: Clear(desired, current, s, name)
    ensures Execute(s, acts) == Run(s, Pods(acts))
  {
    GroundedMeets(s, desired, current, acts);
    ExecutesIff(s, acts);
    PodsRunIff(s, desired, current, Pods(acts));
  }

  lemma InGoal(desired: seq<GroupState>, current: seq<GroupState>, d: GroupState, p: Pod)
    requires UniqueNames(desired) && d in desired && FindGroup(current, d.ref).Some? && p in GroupPods(d)
    ensures Want(Goal(desired, current), p.name) == Some(p)
  {
    SharedUnique(desired, current);
    SharedIff(desired, current, d);
    InUnique(Shared(desired, current), d, p);
    OneHome(Shared(desired, current), d, p.name);
    HomeIs(Shared(desired, current), p.name);
    var g :| g in Shared(desired, current) && g.ref == d.ref && AtHome(Shared(desired, current), g, p.name);
    WantIff(GroupPods(g), p.name);
  }

  lemma GoalMet(s: Recorded, desired: seq<GroupState>, current: seq<GroupState>, acts: seq<Action>, name: string)
    requires Prepared(desired, current) && Staged(acts, desired, Order(desired, current))
    requires Shown(current, s) && WellNamed(s, Goal(desired, current)) && AllTidy(s, Goal(desired, current))
    requires Run(s, acts).Some? && !Orphan(current, s, name)
    ensures Meets(Get(Run(s, acts).value, name), Want(Goal(desired, current), name))
  {
    var goal := Goal(desired, current);
    Project(s, acts, name);
    NameRuns(s, desired, current, acts, name);
    if !Moved(desired, current, name) {
      NamedAt(s, goal, name);
      ListedAt(current, s, name);
      PlannedAtHome(acts, desired, current, name);
      TidyMeets(s, goal, Of(acts, name), name);
    }
  }

  lemma TidyMeets(s: Recorded, desired: seq<Pod>, acts: seq<Action>, name: string)
    requires AllTidy(s, desired) && Named(name, Get(s, name), Want(desired, name))
    requires PodPlan(acts, name, Get(s, name), Want(desired, name)) && RunPod(Get(s, name), acts).Done?
    ensures Meets(RunPod(Get(s, name), acts).pod, Want(desired, name))
  {
    ReachesIff(name, Get(s, name), Want(desired, name), acts);
    if Kept(Get(s, name), Want(desired, name)) {
      DistinctClean(Get(s, name).value.routes.local, Want(desired, name).value.routes.local);
      DistinctClean(Get(s, name).value.routes.remote, Want(desired, name).value.routes.remote);
    }
  }

  /** A recorded pod of no group there is stays as it is, whatever part of the plan is executed. */
  lemma OrphanStays(s: Recorded, desired: seq<GroupState>, current: seq<GroupState>, acts: seq<Action>, k: nat,
                    name: string)
    requires Prepared(desired, current) && Staged(acts, desired, Order(desired, current)) && Orphan(current, s, name)
    requires k <= |acts| && Run(s, acts[..k]).Some?
    ensures Get(Run(s, acts[..k]).value, name) == Get(s, name)
  {
    OrphanPlanned(s, desired, current, acts, name);
    BlockedStays(s, acts, k, name);
  }

  lemma BlockedStays(s: Recorded, acts: seq<Action>, k: nat, name: string)
    requires name in s && (Of(acts, name) == [] || Of(acts, name)[0].Create?)
    requires k <= |acts| && Run(s, acts[..k]).Some?
    ensures Get(Run(s, acts[..k]).value, name) == Get(s, name)
  {
    var j := OfPrefix(acts, k, name);
    Project(s, acts[..k], name);
    if j > 0 {
      BlockedAtOnce(s[name], Of(acts, name)[..j]);
    }
  }

  /** Executing the plan to its end leaves every pod desired of a group in both states as desired,
      every recorded pod of no group as it was, and no other pod: groups that are only in the current
      state keep none, and groups that are only in the desired state get none yet. */
  lemma ClusterReached(s: Recorded, desired: seq<GroupState>, current: seq<GroupState>, acts: seq<ClusterAction>)
    requires Prepared(desired, current) && PlanFrom(acts, desired, current, Order(desired, current))
    requires Shown(current, s) && WellNamed(s, Goal(desired, current)) && AllTidy(s, Goal(desired, current))
    requires Execute(s, acts).Some?
    ensures forall d, p :: d in desired && FindGroup(current, d.ref).Some? && HasPod(d, p) ==>
      Meets(Get(Execute(s, acts).value, p.name), Some(p))
    ensures forall name :: Orphan(current, s, name) ==> Get(Execute(s, acts).value, name) == Get(s, name)
    ensures forall name :: name in Execute(s, acts).value && !Orphan(current, s, name) ==>
      exists d, p :: d in desired && FindGroup(current, d.ref).Some? && HasPod(d, p) && p.name == name
  {
    ClusterRunsIff(s, desired, current, acts);
    forall d, p | d in desired && FindGroup(current, d.ref).Some? && HasPod(d, p)
      ensures Meets(Get(Execute(s, acts).value, p.name), Some(p))
    {
      GroupPodsIff(d, p);
      DesiredMet(s, desired, current, Pods(acts), d, p);
    }
    forall name | Orphan(current, s, name) ensures Get(Execute(s, acts).value, name) == Get(s, name) {
      OrphanLeft(s, desired, current, Pods(acts), name);
    }
    forall name | name in Execute(s, acts).value && !Orphan(current, s, name)
      ensures exists d, p :: d in desired && FindGroup(current, d.ref).Some? && HasPod(d, p) && p.name == name
    {
      GoalMet(s, desired, current, Pods(acts), name);
      var d, p := GoalFrom(desired, current, name);
    }
  }

  lemma DesiredMet(s: Recorded, desired: seq<GroupState>, current: seq<GroupState>, acts: seq<Action>,
                   d: GroupState, p: Pod)
    requires Prepared(desired, current) && Staged(acts, desired, Order(desired, current))
    requires Shown(current, s) && WellNamed(s, Goal(desired, current)) && AllTidy(s, Goal(desired, current))
    requires Run(s, acts).Some? && Clear(desired, current, s, p.name)
    requires d in desired && FindGroup(current, d.ref).Some? && p in GroupPods(d)
    ensures Meets(Get(Run(s, acts).value, p.name), Some(p))
  {
    InGoal(desired, current, d, p);
    GoalMet(s, desired, current, acts, p.name);
  }

  lemma OrphanLeft(s: Recorded, desired: seq<GroupState>, current: seq<GroupState>, acts: seq<Action>, name: string)
    requires Prepared(desired, current) && Staged(acts, desired, Order(desired, current))
    requires Orphan(current, s, name) && Run(s, acts).Some?
    ensures Get(Run(s, acts).value, name) == Get(s, name)
  {
    assert acts[..|acts|] == acts;
    OrphanStays(s, desired, current, acts, |acts|, name);
  }

  lemma GoalFrom(desired: seq<GroupState>, current: seq<GroupState>, name: string) returns (d: GroupState, p: Pod)
    requires Want(Goal(desired, current), name).Some?
    ensures d in desired && FindGroup(current, d.ref).Some? && HasPod(d, p) && p.name == name
  {
    p := Want(Goal(desired, current), name).value;
    WantIff(Goal(desired, current), name);
    AllPodsIff(Shared(desired, current), p);
    d :| d in Shared(desired, current) && p in GroupPods(d);
    SharedIff(desired, current, d);
    GroupPodsIff(d, p);
  }

  /** A pod desired under the name of a recorded one of no group stops every pass. */
  lemma OrphanBlocks(s: Recorded, desired: seq<GroupState>, current: seq<GroupState>, acts: seq<ClusterAction>,
                     name: string)
    requires Prepared(desired, current) && PlanFrom(acts, desired, current, Order(desired, current))
    requires Shown(current, s) && WellNamed(s, Goal(desired, current))
    requires Orphan(current, s, name) && Want(Goal(desired, current), name).Some?
    ensures Execute(s, acts) == None
  {
    ClusterRunsIff(s, desired, current, acts);
    assert !Clear(desired, current, s, name);
  }

  /** The group object a pod was recorded under is gone, and a pod of that name is desired in another
      group. */
  predicate GoneGroup(s: Recorded, d: GroupState, c: GroupState, x: Pod, a: string, b: string) {
    && a != b && !x.addressed && s == map[x.name := x.(group := a, addressed := true)]
    && d == GroupState(b, None, None, [x]) && c == GroupState(b, None, None, [])
  }

  /** Such a state: the creation fails in every pass. */
  lemma GoneGroupBlocks(s: Recorded, d: GroupState, c: GroupState, x: Pod, a: string, b: string,
                        acts: seq<ClusterAction>)
    requires GoneGroup(s, d, c, x, a, b) && PlanFrom(acts, [d], [c], Order([d], [c]))
    ensures Prepared([d], [c]) && Shown([c], s) && WellNamed(s, Goal([d], [c])) && Execute(s, acts) == None
  {
    GoneGroupPrepared(s, d, c, x, a, b);
    GoneGroupGoal(s, d, c, x, a, b);
    OrphanBlocks(s, [d], [c], acts, x.name);
  }

  lemma GoneGroupPrepared(s: Recorded, d: GroupState, c: GroupState, x: Pod, a: string, b: string)
    requires GoneGroup(s, d, c, x, a, b)
    ensures Prepared([d], [c])
  {
    OnlyXfrms([d] + [c]);
    OnlyOneUnique(d);
    OnlyOneUnique(c);
    assert StrictlyAscending(Names(d.xfrms)) && WellFormed(d) && WellFormed(c);
  }

  lemma OnlyOneUnique(g: GroupState)
    requires g.charon == None && g.proxy == None && |g.xfrms| <= 1
    ensures UniqueRefs([g]) && UniqueNames([g])
  {
    assert GroupPods(g) == g.xfrms;
    forall p, q | p in g.xfrms && q in g.xfrms ensures p == q {}
  }

  lemma OnlyXfrms(groups: seq<GroupState>)
    requires forall g :: g in groups ==> g.charon == None && g.proxy == None
    ensures RolesApart(groups)
  {
    assert forall g, k :: g in groups && k != XfrmSlot ==> SlotPods(g, k) == [];
  }

  lemma GoneGroupGoal(s: Recorded, d: GroupState, c: GroupState, x: Pod, a: string, b: string)
    requires GoneGroup(s, d, c, x, a, b)
    ensures Shown([c], s) && WellNamed(s, Goal([d], [c]))
    ensures Orphan([c], s, x.name) && Want(Goal([d], [c]), x.name) == Some(x)
  {
    OnlyGroup(d);
    OnlyGroup(c);
    assert GroupPods(c) == [] && GroupPods(d) == [x];
    assert Shared([d], [c]) == [d] by {
      assert [d][1..] == [];
    }
    assert [x][1..] == [];
  }

  lemma OnlyGroup(g: GroupState)
    ensures AllPods([g]) == GroupPods(g)
  {
    assert [g][1..] == [];
  }

  /** A pod that moves against the order is never touched: whatever part of the plan is executed, it
      is recorded as before, so every later pass is up against the same move. */
  lemma MoveAgainstOrderStays(s: Recorded, desired: seq<GroupState>, current: seq<GroupState>, acts: seq<Action>,
                              k: nat, name: string)
    requires Prepared(desired, current) && Staged(acts, desired, Order(desired, current))
    requires Shown(current, s)
    requires Moved(desired, current, name) && !InOrder(desired, current, name)
    requires k <= |acts| && Run(s, acts[..k]).Some?
    ensures Get(Run(s, acts[..k]).value, name) == Get(s, name) && name in s
  {
    PlannedMove(acts, desired, current, name);
    ListedAt(current, s, name);
    CreatesFirst(Of(acts, name), name, Want(Goal(desired, current), name).value);
    BlockedStays(s, acts, k, name);
  }

  /** On groups sorted by name, as they are planned, a pod moves in order exactly when the group it
      leaves is still desired and its name sorts before the other's. */
  lemma SortedOrderIff(desired: seq<GroupState>, current: seq<GroupState>, name: string)
    requires Prepared(desired, current) && Moved(desired, current, name)
    requires forall i, j :: 0 <= i < j < |desired| ==> Below(desired[i].ref, desired[j].ref)
    ensures var from, to := HomeOf(current, name).value, HomeOf(Shared(desired, current), name).value;
      InOrder(desired, current, name) <==> FindGroup(desired, from).Some? && Below(from, to)
  {
    var from, to := HomeOf(current, name).value, HomeOf(Shared(desired, current), name).value;
    var j := GoalIndex(desired, current, name);
    PositionsSorted(desired, from, to);
  }

  lemma PositionsSorted(groups: seq<GroupState>, a: string, b: string)
    requires forall i, j :: 0 <= i < j < |groups| ==> Below(groups[i].ref, groups[j].ref)
    requires FindGroup(groups, b).Some? && a != b
    ensures Position(groups, a) < Position(groups, b) <==> FindGroup(groups, a).Some? && Below(a, b)
  {
    var i, j := Position(groups, a), Position(groups, b);
    if i < |groups| {
      assert groups[i].ref == a && groups[j].ref == b;
      Trichotomy(a, b);
    }
  }
}

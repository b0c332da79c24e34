/** The plan for the xfrm pods of a group: `diffXfrms`, with the sorting and searching it relies on. */
module XfrmPlan {
  import opened Api
  import opened Lists
  import opened Ordering
  import opened Routes
  import opened XfrmPod

  // ---------------------------------------------------------------- lists of pods

  function Names(ps: seq<Pod>): seq<string> {
    seq(|ps|, i requires 0 <= i < |ps| => ps[i].name)
  }

  /** The first pod of that name. */
  function Want(ps: seq<Pod>, name: string): Option<Pod> {
    if ps == [] then None else if ps[0].name == name then Some(ps[0]) else Want(ps[1..], name)
  }

  lemma {:induction false} WantIff(ps: seq<Pod>, name: string)
    ensures Want(ps, name).Some? <==> name in Names(ps)
    ensures Want(ps, name).Some? ==> Want(ps, name).value in ps && Want(ps, name).value.name == name
  {
    if ps != [] {
      WantIff(ps[1..], name);
      assert Names(ps) == [ps[0].name] + Names(ps[1..]);
    }
  }

  lemma {:induction false} WantAt(ps: seq<Pod>, i: nat)
    requires Distinct(Names(ps)) && i < |ps|
    ensures Want(ps, ps[i].name) == Some(ps[i])
  {
    if i == 0 {
    } else {
      var rest := ps[1..];
      assert Names(ps)[0] == ps[0].name && Names(ps)[i] == ps[i].name;
      assert Names(rest) == Names(ps)[1..];
      WantAt(rest, i - 1);
    }
  }

  lemma NamesReordered(ps: seq<Pod>, qs: seq<Pod>, name: string)
    requires multiset(ps) == multiset(qs) && name in Names(ps)
    ensures name in Names(qs)
  {
    WantIff(ps, name);
    var p := Want(ps, name).value;
    assert p in multiset(qs);
    var i :| 0 <= i < |qs| && qs[i] == p;
    assert Names(qs)[i] == name;
  }

  /** Reordering a list of differently named pods does not change what it holds. */
  lemma WantReordered(ps: seq<Pod>, qs: seq<Pod>, name: string)
    requires multiset(ps) == multiset(qs) && Distinct(Names(ps)) && Distinct(Names(qs))
    ensures Want(ps, name) == Want(qs, name)
  {
    WantIff(ps, name);
    WantIff(qs, name);
    if name in Names(ps) {
      var p := Want(ps, name).value;
      assert p in multiset(qs);
      var i :| 0 <= i < |qs| && qs[i] == p;
      WantAt(qs, i);
    } else if name in Names(qs) {
      NamesReordered(qs, ps, name);
    }
  }

  // ---------------------------------------------------------------- sorting by name

  function InsertPod(x: Pod, s: seq<Pod>): (r: seq<Pod>)
    ensures multiset(r) == multiset(s) + multiset{x}
  {
    if s == [] then [x]
    else if Below(s[0].name, x.name) then assert s == [s[0]] + s[1..]; [s[0]] + InsertPod(x, s[1..])
    else [x] + s
  }

  function SortPods(s: seq<Pod>): (r: seq<Pod>)
    ensures multiset(r) == multiset(s)
  {
    if s == [] then [] else assert s == [s[0]] + s[1..]; InsertPod(s[0], SortPods(s[1..]))
  }

  lemma NamesCons(p: Pod, ps: seq<Pod>)
    ensures Names([p] + ps) == [p.name] + Names(ps)
  {}

  lemma {:induction false} InsertNames(x: Pod, s: seq<Pod>)
    ensures Names(InsertPod(x, s)) == Insert(x.name, Names(s))
  {
    if s == [] {
    } else if Below(s[0].name, x.name) {
      InsertNames(x, s[1..]);
      NamesCons(s[0], InsertPod(x, s[1..]));
      assert Names(s)[1..] == Names(s[1..]);
    } else {
      NamesCons(x, s);
    }
  }

  lemma {:induction false} SortNames(s: seq<Pod>)
    ensures Names(SortPods(s)) == Sort(Names(s))
  {
    if s != [] {
      assert Names(s)[1..] == Names(s[1..]);
      SortNames(s[1..]);
      InsertNames(s[0], SortPods(s[1..]));
    }
  }

  lemma StrictlySorted(s: seq<string>)
    requires Distinct(s)
    ensures StrictlyAscending(Sort(s)) && Distinct(Sort(s))
  {
    var r := Sort(s);
    SortAscending(s);
    SameMultisetDistinct(s, r);
    forall i, j | 0 <= i < j < |r| ensures Below(r[i], r[j]) {
      Trichotomy(r[i], r[j]);
    }
  }

  lemma SameMultisetDistinct(s: seq<string>, r: seq<string>)
    requires Distinct(s) && multiset(r) == multiset(s)
    ensures Distinct(r)
  {
    DistinctCounts(s);
    DistinctCounts(r);
  }

  lemma SortedPods(ps: seq<Pod>)
    requires Distinct(Names(ps))
    ensures StrictlyAscending(Names(SortPods(ps))) && Distinct(Names(SortPods(ps)))
  {
    SortNames(ps);
    StrictlySorted(Names(ps));
  }

  /** `FindXfrms`: the pods of one group, in order. */
  function OfGroup(ps: seq<Pod>, group: string): (r: seq<Pod>)
    ensures forall p :: p in r <==> p in ps && p.group == group
  {
    if ps == [] then []
    else if ps[0].group == group then [ps[0]] + OfGroup(ps[1..], group) else OfGroup(ps[1..], group)
  }

  lemma {:induction false} OfGroupAscending(ps: seq<Pod>, group: string)
    requires StrictlyAscending(Names(ps))
    ensures StrictlyAscending(Names(OfGroup(ps, group)))
  {
    if ps != [] {
      var rest := OfGroup(ps[1..], group);
      assert Names(ps[1..]) == Names(ps)[1..];
      OfGroupAscending(ps[1..], group);
      if ps[0].group == group {
        var names := Names([ps[0]] + rest);
        forall i, j | 0 <= i < j < |names| ensures Below(names[i], names[j]) {
          if i == 0 {
            assert rest[j - 1] in ps[1..];
            var k :| 0 <= k < |ps[1..]| && ps[1..][k] == rest[j - 1];
            assert Below(Names(ps)[0], Names(ps)[k + 1]);
          } else {
            assert names[i] == Names(rest)[i - 1] && names[j] == Names(rest)[j - 1];
          }
        }
      }
    }
  }

  lemma AscendingDistinct(s: seq<string>)
    requires StrictlyAscending(s)
    ensures Distinct(s)
  {
    forall i, j | 0 <= i < j < |s| ensures s[i] != s[j] {
      Trichotomy(s[i], s[j]);
    }
  }

  /** Whatever list of differently named pods a state is built from, the list a group is planned
      with is one the binary search is right on: it finds exactly the names in it. */
  lemma PipelineSearchable(ps: seq<Pod>, group: string, name: string)
    requires Distinct(Names(ps))
    ensures var desired := OfGroup(SortPods(ps), group);
      && StrictlyAscending(Names(desired)) && Distinct(Names(desired))
      && (Found(Names(desired), name) <==> exists p :: p in ps && p.group == group && p.name == name)
  {
    var desired := OfGroup(SortPods(ps), group);
    SortedPods(ps);
    OfGroupAscending(SortPods(ps), group);
    AscendingDistinct(Names(desired));
    FoundIffMember(Names(desired), name);
    NamedInGroup(ps, group, name);
  }

  lemma NamedInGroup(ps: seq<Pod>, group: string, name: string)
    ensures name in Names(OfGroup(SortPods(ps), group)) <==> exists p :: p in ps && p.group == group && p.name == name
  {
    var desired := OfGroup(SortPods(ps), group);
    if p :| p in ps && p.group == group && p.name == name {
      assert p in multiset(SortPods(ps));
      var i :| 0 <= i < |desired| && desired[i] == p;
      assert Names(desired)[i] == name;
    }
    if name in Names(desired) {
      WantIff(desired, name);
      assert Want(desired, name).value in multiset(ps);
    }
  }

  // ---------------------------------------------------------------- plans

  /** The actions on one pod, in order. */
  function Of(acts: seq<Action>, name: string): seq<Action> {
    if acts == [] then []
    else if Target(acts[0]) == name then [acts[0]] + Of(acts[1..], name)
    else Of(acts[1..], name)
  }

  lemma {:induction false} OfConcat(first: seq<Action>, second: seq<Action>, name: string)
    ensures Of(first + second, name) == Of(first, name) + Of(second, name)
  {
    if first == [] {
      assert first + second == second;
    } else {
      OfConcat(first[1..], second, name);
      OfCons(first, second, name);
    }
  }

  lemma OfCons(first: seq<Action>, second: seq<Action>, name: string)
    requires first != []
    ensures Of(first + second, name) ==
      (if Target(first[0]) == name then [first[0]] else []) + Of(first[1..] + second, name)
  {
    assert (first + second)[1..] == first[1..] + second;
  }

  lemma {:induction false} OfOne(acts: seq<Action>, owner: string, name: string)
    requires forall a :: a in acts ==> Target(a) == owner
    ensures Of(acts, name) == if name == owner then acts else []
  {
    if acts != [] {
      OfOne(acts[1..], owner, name);
      assert Target(acts[0]) == owner;
      assert acts == [acts[0]] + acts[1..];
    }
  }

  /** For every pod the actions on it are a plan for it. */
  ghost predicate IsPlan(acts: seq<Action>, current: seq<Pod>, desired: seq<Pod>) {
    forall name :: PodPlan(Of(acts, name), name, Want(current, name), Want(desired, name))
  }

  /** As `PodPlan`, but a desired pod that the search for its name misses is deleted in the end. */
  ghost predicate SearchPlan(acts: seq<Action>, name: string, o: Option<Pod>, x: Option<Pod>, found: bool) {
    if o.Some? && x.Some? && !found then
      acts != [] && acts[|acts| - 1] == Delete(name) && PodPlan(acts[..|acts| - 1], name, o, x)
    else PodPlan(acts, name, o, x)
  }

  /** The order in which the desired pods are searched: they are sorted in place on the way when
      there are as many as current pods. */
  function Searched(desired: seq<Pod>, current: seq<Pod>): seq<Pod> {
    if |desired| == |current| then SortPods(desired) else desired
  }

  /** What `DiffXfrms` gives. */
  ghost predicate Returned(acts: seq<Action>, wanted: seq<Pod>, recorded: seq<Pod>) {
    forall name :: SearchPlan(Of(acts, name), name, Want(recorded, name), Want(wanted, name),
                              Found(Names(Searched(wanted, recorded)), name))
  }

  /** `compareXfrmPods`. */
  predicate Same(a: Pod, b: Pod) {
    a.name == b.name && SameBox(a, b) && a.routes == b.routes
  }

  method SameLists(desired: seq<Pod>, current: seq<Pod>) returns (same: bool)
    requires |desired| == |current|
    ensures same <==> forall i :: 0 <= i < |desired| ==> Same(desired[i], current[i])
  {
    for i := 0 to |desired|
      invariant forall j :: 0 <= j < i ==> Same(desired[j], current[j])
    {
      if !Same(desired[i], current[i]) {
        return false;
      }
    }
    same := true;
  }

  /** What is planned for a desired pod before the search for leftovers. */
  method PlanPod(x: Pod, current: seq<Pod>) returns (acts: seq<Action>)
    ensures PodPlan(acts, x.name, Want(current, x.name), Some(x))
    ensures forall a :: a in acts ==> Target(a) == x.name
  {
    for i := 0 to |current|
      invariant Want(current, x.name) == Want(current[i..], x.name)
    {
      if current[i].name == x.name {
        var p := current[i];
        if Same(x, p) {
          acts := [];
          NothingToDo(p, x);
        } else if p.props != x.props || p.node != x.node {
          acts := [Delete(p.name), Create(x)];
        } else {
          acts := DiffRoutes(p, x);
        }
        return;
      }
    }
    acts := CreateXfrmPod(x);
  }

  lemma NothingToDo(p: Pod, x: Pod)
    requires p.routes == x.routes
    ensures Rerouted([], p, x)
  {
    var ops := RouteOps([], [], []);
    assert Turns(ops, p.routes, x.routes);
    assert RouteActs(p, ops) == [];
  }

  /** The plans for all desired pods. */
  method PlanDesired(desired: seq<Pod>, current: seq<Pod>) returns (acts: seq<Action>)
    requires Distinct(Names(desired))
    ensures forall name :: if name in Names(desired)
      then PodPlan(Of(acts, name), name, Want(current, name), Want(desired, name)) else Of(acts, name) == []
  {
    acts := [];
    for i := 0 to |desired|
      invariant forall name :: if name in Names(desired[..i])
        then PodPlan(Of(acts, name), name, Want(current, name), Want(desired, name)) else Of(acts, name) == []
    {
      var more := PlanPod(desired[i], current);
      forall name ensures if name in Names(desired[..i + 1])
        then PodPlan(Of(acts + more, name), name, Want(current, name), Want(desired, name)) else Of(acts + more, name) == []
      {
        PlannedNext(acts, more, desired, current, i, name);
      }
      acts := acts + more;
    }
    assert desired[..|desired|] == desired;
  }

  lemma PlannedNext(acts: seq<Action>, more: seq<Action>, desired: seq<Pod>, current: seq<Pod>, i: nat, name: string)
    requires i < |desired| && Distinct(Names(desired))
    requires if name in Names(desired[..i])
      then PodPlan(Of(acts, name), name, Want(current, name), Want(desired, name)) else Of(acts, name) == []
    requires PodPlan(more, desired[i].name, Want(current, desired[i].name), Some(desired[i]))
    requires forall a :: a in more ==> Target(a) == desired[i].name
    ensures if name in Names(desired[..i + 1])
      then PodPlan(Of(acts + more, name), name, Want(current, name), Want(desired, name)) else Of(acts + more, name) == []
  {
    NamesNext(desired, i, name);
    OfConcat(acts, more, name);
    OfOne(more, desired[i].name, name);
    WantAt(desired, i);
    assert Of(acts, name) + [] == Of(acts, name) && [] + more == more;
  }

  lemma NamesNext(ps: seq<Pod>, i: nat, name: string)
    requires i < |ps|
    ensures name in Names(ps[..i + 1]) <==> name in Names(ps[..i]) || name == ps[i].name
    ensures Distinct(Names(ps)) ==> ps[i].name !in Names(ps[..i])
  {
    assert Names(ps[..i + 1]) == Names(ps[..i]) + [ps[i].name];
    if Distinct(Names(ps)) {
      forall j | 0 <= j < i ensures Names(ps[..i])[j] != ps[i].name {
        assert Names(ps)[j] != Names(ps)[i];
      }
    }
  }

  predicate Leftover(current: seq<Pod>, desired: seq<Pod>, name: string) {
    name in Names(current) && !Found(Names(desired), name)
  }

  /** The deletions at the end: one for each current pod the search does not find. */
  method PlanLeftovers(current: seq<Pod>, desired: seq<Pod>) returns (acts: seq<Action>)
    requires Distinct(Names(current))
    ensures forall name :: Of(acts, name) == if Leftover(current, desired, name) then [Delete(name)] else []
  {
    acts := [];
    for i := 0 to |current|
      invariant forall name :: Of(acts, name) == if Leftover(current[..i], desired, name) then [Delete(name)] else []
    {
      var found := BinarySearch(Names(desired), current[i].name);
      var more := if found then [] else [Delete(current[i].name)];
      forall name ensures Of(acts + more, name) ==
          if Leftover(current[..i + 1], desired, name) then [Delete(name)] else []
      {
        NamesNext(current, i, name);
        OfConcat(acts, more, name);
        OfOne(more, current[i].name, name);
      }
      acts := acts + more;
    }
    assert current[..|current|] == current;
  }

  /** The shortcut of `diffXfrms`: as many pods on both sides, and the same ones. */
  method AllSame(wanted: seq<Pod>, recorded: seq<Pod>) returns (same: bool)
    requires Distinct(Names(wanted)) && Distinct(Names(recorded)) && |wanted| == |recorded|
    ensures same ==> forall name ::
      SearchPlan([], name, Want(recorded, name), Want(wanted, name), Found(Names(SortPods(wanted)), name))
  {
    var desired, current := SortPods(wanted), SortPods(recorded);
    assert |multiset(desired)| == |multiset(wanted)| && |multiset(current)| == |multiset(recorded)|;
    same := SameLists(desired, current);
    if same {
      forall name ensures SearchPlan([], name, Want(recorded, name), Want(wanted, name), Found(Names(desired), name)) {
        NothingForSame(wanted, recorded, desired, current, name);
      }
    }
  }

  lemma NothingForSame(wanted: seq<Pod>, recorded: seq<Pod>, desired: seq<Pod>, current: seq<Pod>, name: string)
    requires Distinct(Names(wanted)) && Distinct(Names(recorded)) && |desired| == |current|
    requires desired == SortPods(wanted) && current == SortPods(recorded)
    requires forall i :: 0 <= i < |desired| ==> Same(desired[i], current[i])
    ensures SearchPlan([], name, Want(recorded, name), Want(wanted, name), Found(Names(desired), name))
  {
    SortedPods(wanted);
    SortedPods(recorded);
    WantReordered(wanted, desired, name);
    WantReordered(recorded, current, name);
    FoundIffMember(Names(desired), name);
    assert Names(desired) == Names(current);
    WantIff(desired, name);
    WantIff(current, name);
    if name in Names(desired) {
      NothingAt(desired, current, name);
    }
  }

  lemma NothingAt(desired: seq<Pod>, current: seq<Pod>, name: string)
    requires Distinct(Names(desired)) && Distinct(Names(current)) && |desired| == |current| && name in Names(desired)
    requires forall i :: 0 <= i < |desired| ==> Same(desired[i], current[i])
    ensures PodPlan([], name, Want(current, name), Want(desired, name))
  {
    var i :| 0 <= i < |desired| && Names(desired)[i] == name;
    WantAt(desired, i);
    WantAt(current, i);
    NothingToDo(current[i], desired[i]);
  }

  /** `diffXfrms`: plans for the desired pods, and the deletions. */
  method DiffXfrms(wanted: seq<Pod>, recorded: seq<Pod>) returns (acts: seq<Action>)
    requires Distinct(Names(wanted)) && Distinct(Names(recorded))
    ensures Returned(acts, wanted, recorded)
  {
    var desired, current := wanted, recorded;
    if |desired| == |current| {
      var same := AllSame(wanted, recorded);
      if same {
        return [];
      }
      desired, current := SortPods(wanted), SortPods(recorded);
      SortedPods(wanted);
      SortedPods(recorded);
    }
    var planned := PlanDesired(desired, current);
    var leftovers := PlanLeftovers(current, desired);
    acts := planned + leftovers;
    forall name ensures
      SearchPlan(Of(acts, name), name, Want(recorded, name), Want(wanted, name), Found(Names(desired), name))
    {
      WantReordered(desired, wanted, name);
      WantReordered(current, recorded, name);
      Together(planned, leftovers, desired, current, name);
    }
  }

  lemma Together(planned: seq<Action>, leftovers: seq<Action>, desired: seq<Pod>, current: seq<Pod>, name: string)
    requires if name in Names(desired)
      then PodPlan(Of(planned, name), name, Want(current, name), Want(desired, name)) else Of(planned, name) == []
    requires Of(leftovers, name) == if Leftover(current, desired, name) then [Delete(name)] else []
    ensures SearchPlan(Of(planned + leftovers, name), name, Want(current, name), Want(desired, name), Found(Names(desired), name))
  {
    var p := Of(planned, name);
    OfConcat(planned, leftovers, name);
    WantIff(desired, name);
    WantIff(current, name);
    assert Found(Names(desired), name) ==> name in Names(desired);
    if Leftover(current, desired, name) {
      assert (p + [Delete(name)])[..|p|] == p;
    } else {
      assert p + [] == p;
    }
  }

  /** The search finds every pod that is both desired and recorded. */
  ghost predicate Searchable(wanted: seq<Pod>, recorded: seq<Pod>) {
    forall name :: name in Names(wanted) && name in Names(recorded) ==> Found(Names(Searched(wanted, recorded)), name)
  }

  lemma KeptNotDeleted(acts: seq<Action>, name: string, p: Pod, x: Pod)
    requires PodPlan(acts, name, Some(p), Some(x)) && acts != []
    ensures !acts[|acts| - 1].Delete?
  {
    if SameBox(p, x) {
      var ops :| Turns(ops, p.routes, x.routes) && acts == RouteActs(p, ops);
    }
  }

  /** The result is a plan for every pod exactly when the search misses none. */
  lemma ReturnsPlanIff(acts: seq<Action>, wanted: seq<Pod>, recorded: seq<Pod>)
    requires Returned(acts, wanted, recorded)
    ensures IsPlan(acts, recorded, wanted) <==> Searchable(wanted, recorded)
  {
    forall name
      ensures PodPlan(Of(acts, name), name, Want(recorded, name), Want(wanted, name)) <==>
        (name in Names(wanted) && name in Names(recorded) ==> Found(Names(Searched(wanted, recorded)), name))
    {
      WantIff(wanted, name);
      WantIff(recorded, name);
      if Want(recorded, name).Some? && Want(wanted, name).Some?
        && PodPlan(Of(acts, name), name, Want(recorded, name), Want(wanted, name)) && Of(acts, name) != [] {
        KeptNotDeleted(Of(acts, name), name, Want(recorded, name).value, Want(wanted, name).value);
      }
    }
  }

  lemma SearchedFinds(wanted: seq<Pod>, recorded: seq<Pod>)
    requires Distinct(Names(wanted)) && (|wanted| == |recorded| || StrictlyAscending(Names(wanted)))
    ensures Searchable(wanted, recorded)
  {
    var searched := Searched(wanted, recorded);
    SortedPods(wanted);
    forall name | name in Names(wanted) ensures Found(Names(searched), name) {
      FoundIffMember(Names(searched), name);
      WantReordered(wanted, searched, name);
      WantIff(searched, name);
      WantIff(wanted, name);
    }
  }

  /** On every list the pipeline plans with, and on any when there are as many current pods, the
      result is a plan for every pod: no desired pod is deleted. */
  lemma SearchedPlan(acts: seq<Action>, wanted: seq<Pod>, recorded: seq<Pod>)
    requires Distinct(Names(wanted)) && Distinct(Names(recorded))
    requires Returned(acts, wanted, recorded)
    requires |wanted| == |recorded| || StrictlyAscending(Names(wanted))
    ensures IsPlan(acts, recorded, wanted)
  {
    SearchedFinds(wanted, recorded);
    ReturnsPlanIff(acts, wanted, recorded);
  }

  /** Whatever is recorded the search misses no desired pod, so that none is deleted, if and only if
      the desired pods are sorted by name. */
  lemma SearchableIff(wanted: seq<Pod>)
    requires Distinct(Names(wanted))
    ensures (forall recorded :: Distinct(Names(recorded)) ==> Searchable(wanted, recorded)) <==>
      StrictlyAscending(Names(wanted))
  {
    FindsAllIff(Names(wanted));
    if StrictlyAscending(Names(wanted)) {
      forall recorded | Distinct(Names(recorded)) ensures Searchable(wanted, recorded) {
        SearchedFinds(wanted, recorded);
      }
    } else {
      var name :| name in Names(wanted) && !Found(Names(wanted), name);
      var i :| 0 <= i < |wanted| && Names(wanted)[i] == name;
      var recorded := [wanted[i]];
      assert Names(recorded) == [name] && Distinct(Names(recorded));
      assert |wanted| != |recorded|;
      assert name in Names(recorded) && !Searchable(wanted, recorded);
    }
  }

  /** What is planned for a pod that is desired and recorded: it is deleted and created anew exactly if its
      owner, its interface, its addresses or its node differ, and otherwise gets exactly the route actions
      that are needed; if the search misses its name, it is deleted in the end. */
  lemma RecreatedOrRerouted(acts: seq<Action>, wanted: seq<Pod>, recorded: seq<Pod>, p: Pod, x: Pod)
      returns (mine: seq<Action>)
    requires Returned(acts, wanted, recorded)
    requires Want(recorded, x.name) == Some(p) && Want(wanted, x.name) == Some(x)
    ensures Of(acts, x.name) ==
      mine + (if Found(Names(Searched(wanted, recorded)), x.name) then [] else [Delete(x.name)])
    ensures mine == [Delete(x.name), Create(x)] <==>
      || p.props.ownerChild != x.props.ownerChild || p.props.ownerConnection != x.props.ownerConnection
      || p.props.interfaceId != x.props.interfaceId || p.props.xfrmIP != x.props.xfrmIP
      || p.props.vxlanIP != x.props.vxlanIP || p.node != x.node
    ensures p.props == x.props && p.node == x.node ==>
      && ListsPlanned(mine, p.name, p.addressed, p.routes, x.routes)
      && EntriesPlanned(mine, p.name, p.addressed, p.routes.fdb, x.routes.fdb)
      && OnlyRoutes(mine, p.name, p.addressed) && InStages(mine)
  {
    var found := Found(Names(Searched(wanted, recorded)), x.name);
    assert SearchPlan(Of(acts, x.name), x.name, Some(p), Some(x), found);
    TrimmedIs(Of(acts, x.name), found, x.name);
    mine := Trimmed(Of(acts, x.name), found);
    WantIff(recorded, x.name);
    RecreatedIff(mine, x.name, p, x);
    if p.props == x.props && p.node == x.node {
      KeptPlanIs(mine, p, x);
    }
  }

  /** The plan without the deletion at its end. */
  function Trimmed(acts: seq<Action>, found: bool): seq<Action> {
    if found || acts == [] then acts else acts[..|acts| - 1]
  }

  lemma TrimmedIs(acts: seq<Action>, found: bool, name: string)
    requires !found ==> acts != [] && acts[|acts| - 1] == Delete(name)
    ensures acts == Trimmed(acts, found) + (if found then [] else [Delete(name)])
  {}

  /** Such a list: a desired pod is planned for and then deleted. */
  lemma UnsortedDeletesDesired(a: Pod, b: Pod, acts: seq<Action>)
    requires a.name == "a" && b.name == "b"
    requires Returned(acts, [b, a], [a])
    ensures Want([b, a], "a") == Some(a) && Of(acts, "a") != [] && Of(acts, "a")[|Of(acts, "a")| - 1] == Delete("a")
  {}
}

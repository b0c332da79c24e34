/** Connection health: the status a failure detector downgrades and the operator repairs. */
module Health {
  import opened Api
  import opened Lists
  import opened Ordering

  /** `State` and `ChildrenState`; the latter may be missing altogether. */
  datatype ConnStatus = ConnStatus(state: string, children: Option<map<string, string>>)

  datatype Action =
    | Update(conn: string)
    | Restart(conn: string, child: string)

  // ---------------------------------------------------------------- effects

  /** The detector reports a connection without an SA (`child` empty) or a child without one. */
  function Downgraded(st: ConnStatus, child: string): ConnStatus {
    if child == "" then st.(state := "Down")
    else
      var recorded := if st.children.Some? then st.children.value else map[];
      ConnStatus("Degraded", Some(recorded[child := "Down"]))
  }

  predicate AnyDown(children: map<string, string>) {
    exists c :: c in children && children[c] == "Down"
  }

  /** A child restart that succeeded; the recorded map must exist to be written to. */
  function Restarted(st: ConnStatus, child: string): ConnStatus
    requires st.children.Some?
  {
    var children := st.children.value[child := "UP"];
    ConnStatus(if AnyDown(children) then st.state else "UP", Some(children))
  }

  /** The optimistic update after a status was found missing. */
  function Assumed(st: ConnStatus, spec: set<string>): ConnStatus {
    var recorded := if st.children.Some? then st.children.value else map[];
    ConnStatus("UP", if spec == {} then st.children else Some(MarkedUp(recorded, spec)))
  }

  function MarkedUp(children: map<string, string>, names: set<string>): map<string, string> {
    children + map c | c in names :: "UP"
  }

  lemma MarkOne(children: map<string, string>, names: set<string>, child: string)
    ensures MarkedUp(children, names)[child := "UP"] == MarkedUp(children, names + {child})
    ensures names == {} ==> MarkedUp(children, names) == children
  {}

  function Do(st: ConnStatus, spec: set<string>, a: Action): ConnStatus
    requires a.Restart? ==> st.children.Some?
  {
    match a
    case Update(_) => Assumed(st, spec)
    case Restart(_, child) => Restarted(st, child)
  }

  /** The stored status, and the three writers of it. */
  class StoredStatus {
    var state: string
    var children: Option<map<string, string>>

    constructor ()
      ensures Value() == UNKNOWN
    {
      state, children := "", None;
    }

    function Value(): ConnStatus
      reads this
    {
      ConnStatus(state, children)
    }

    /** One report taken by `downgradeConnectionStatus`. */
    method Downgrade(child: string)
      modifies this
      ensures Value() == Downgraded(old(Value()), child)
      ensures child == "" ==> state == "Down" && children == old(children)
      ensures child != "" ==> state == "Degraded" && children.Some? && child in children.value
      ensures child != "" ==>
        children.value == (if old(children).Some? then old(children).value else map[])[child := "Down"]
    {
      if child == "" {
        state := "Down";
      } else {
        state := "Degraded";
        if children.None? {
          children := Some(map[]);
        }
        children := Some(children.value[child := "Down"]);
      }
    }

    /** The end of a successful child restart; there is no map to write to when none was stored. */
    method RestartChild(child: string) returns (ok: bool)
      modifies this
      ensures ok <==> old(children).Some?
      ensures Value() == if ok then Restarted(old(Value()), child) else old(Value())
      ensures ok ==> children == Some(old(children).value[child := "UP"])
      ensures ok ==>
        state == if exists c :: c in children.value && children.value[c] == "Down" then old(state) else "UP"
    {
      ok := children.Some?;
      if ok {
        children := Some(children.value[child := "UP"]);
        var down := HasDown(children.value);
        if !down {
          state := "UP";
        }
      }
    }

    /** The optimistic update: every child of the spec is taken to be up. */
    method AssumeUp(spec: set<string>)
      modifies this
      ensures Value() == Assumed(old(Value()), spec)
      ensures state == "UP" && (spec == {} ==> children == old(children))
      ensures forall c :: c in spec ==> children.Some? && c in children.value && children.value[c] == "UP"
      ensures forall c :: c !in spec && children.Some? && c in children.value ==>
        old(children).Some? && c in old(children).value && children.value[c] == old(children).value[c]
      ensures old(children).Some? ==> children.Some? && old(children).value.Keys <= children.value.Keys
    {
      ghost var recorded := if children.Some? then children.value else map[];
      var todo := spec;
      while todo != {}
        invariant todo <= spec && state == old(state)
        invariant children == if todo == spec then old(children) else Some(MarkedUp(recorded, spec - todo))
      {
        var child :| child in todo;
        if children.None? {
          children := Some(map[]);
        }
        MarkOne(recorded, spec - todo, child);
        assert (spec - todo) + {child} == spec - (todo - {child});
        todo := todo - {child};
        children := Some(children.value[child := "UP"]);
      }
      assert spec - {} == spec;
      state := "UP";
    }
  }

  method HasDown(children: map<string, string>) returns (down: bool)
    ensures down <==> AnyDown(children)
  {
    var todo := children.Keys;
    while todo != {}
      invariant todo <= children.Keys
      invariant forall c :: c in children && c !in todo ==> children[c] != "Down"
    {
      var c :| c in todo;
      if children[c] == "Down" {
        return true;
      }
      todo := todo - {c};
    }
    down := false;
  }

  // ---------------------------------------------------------------- the invariant over runs

  datatype Step =
    | ConnFails
    | ChildFails(child: string)
    | ChildRestarts(child: string)
    | AssumeUp
    | SpecEdit(names: set<string>)

  /** Reports and restarts may still concern a child that has left the spec. */
  predicate Enabled(st: ConnStatus, step: Step) {
    match step
    case ChildFails(c) => c != ""
    case ChildRestarts(_) => st.children.Some?
    case _ => true
  }

  function Next(st: ConnStatus, spec: set<string>, step: Step): ConnStatus
    requires Enabled(st, step)
  {
    match step
    case ConnFails => Downgraded(st, "")
    case ChildFails(c) => Downgraded(st, c)
    case ChildRestarts(c) => Restarted(st, c)
    case AssumeUp => Assumed(st, spec)
    case SpecEdit(_) => st
  }

  /** The children in the spec after a step. */
  function SpecAfter(spec: set<string>, step: Step): set<string> {
    if step.SpecEdit? then step.names else spec
  }

  predicate Possible(st: ConnStatus, spec: set<string>, steps: seq<Step>)
    decreases |steps|
  {
    || steps == []
    || (Enabled(st, steps[0]) && Possible(Next(st, spec, steps[0]), SpecAfter(spec, steps[0]), steps[1..]))
  }

  function Run(st: ConnStatus, spec: set<string>, steps: seq<Step>): ConnStatus
    requires Possible(st, spec, steps)
    decreases |steps|
  {
    if steps == [] then st else Run(Next(st, spec, steps[0]), SpecAfter(spec, steps[0]), steps[1..])
  }

  const UNKNOWN := ConnStatus("", None)

  predicate SomeDown(st: ConnStatus) {
    st.children.Some? && AnyDown(st.children.value)
  }

  predicate Consistent(st: ConnStatus, spec: set<string>) {
    && st.state in {"", "UP", "Degraded", "Down"}
    && (st.state == "UP" ==> !SomeDown(st))
    && (st.state == "Degraded" ==> SomeDown(st))
    && (st.children.Some? ==>
          spec != {} && st.children.value.Keys <= spec
          && forall c :: c in st.children.value ==> st.children.value[c] in {"UP", "Down"})
  }

  /** A step about the children of the spec, which it leaves as it is. */
  predicate Within(spec: set<string>, step: Step) {
    match step
    case ChildFails(c) => c in spec
    case ChildRestarts(c) => c in spec
    case SpecEdit(_) => false
    case _ => true
  }

  lemma StepConsistent(st: ConnStatus, spec: set<string>, step: Step)
    requires Consistent(st, spec) && Enabled(st, step) && Within(spec, step)
    ensures Consistent(Next(st, spec, step), spec)
  {
    if step.ChildFails? {
      assert Next(st, spec, step).children.value[step.child] == "Down";
    }
  }

  /** With a fixed spec, over any run of failure reports, restarts and optimistic updates: "UP"
      means no recorded child is down, and "Degraded" means one is. */
  lemma {:induction false} RunConsistent(st: ConnStatus, spec: set<string>, steps: seq<Step>)
    requires Consistent(st, spec) && Possible(st, spec, steps)
    requires forall i :: 0 <= i < |steps| ==> Within(spec, steps[i])
    ensures Consistent(Run(st, spec, steps), spec)
    decreases |steps|
  {
    if steps != [] {
      StepConsistent(st, spec, steps[0]);
      RunConsistent(Next(st, spec, steps[0]), spec, steps[1..]);
    }
  }

  /** A report on the whole connection makes it "Down", and it stays "Down" until a child is reported or
      restarted or an update is taken. */
  lemma {:induction false} DownStays(st: ConnStatus, spec: set<string>, steps: seq<Step>)
    requires Possible(st, spec, [ConnFails] + steps)
    requires forall i :: 0 <= i < |steps| ==> steps[i].ConnFails? || steps[i].SpecEdit?
    ensures Run(st, spec, [ConnFails] + steps).state == "Down"
    ensures Run(st, spec, [ConnFails] + steps).children == st.children
    decreases |steps|
  {
    var all := [ConnFails] + steps;
    assert all[1..] == steps;
    StaysDown(Next(st, spec, ConnFails), spec, steps);
  }

  lemma {:induction false} StaysDown(st: ConnStatus, spec: set<string>, steps: seq<Step>)
    requires Possible(st, spec, steps) && st.state == "Down"
    requires forall i :: 0 <= i < |steps| ==> steps[i].ConnFails? || steps[i].SpecEdit?
    ensures Run(st, spec, steps).state == "Down" && Run(st, spec, steps).children == st.children
    decreases |steps|
  {
    if steps != [] {
      StaysDown(Next(st, spec, steps[0]), SpecAfter(spec, steps[0]), steps[1..]);
    }
  }

  /** A report on a child makes the connection "Degraded" with the child recorded down. */
  lemma ReportIs(st: ConnStatus, spec: set<string>, child: string)
    requires child != ""
    ensures var after := Next(st, spec, ChildFails(child));
      && after.state == "Degraded" && after.children.Some?
      && child in after.children.value && after.children.value[child] == "Down"
      && forall c :: c != child ==>
           (c in after.children.value <==> st.children.Some? && c in st.children.value)
           && (c in after.children.value ==> after.children.value[c] == st.children.value[c])
  {}

  // ---------------------------------------------------------------- runs with spec edits

  predicate Honest(st: ConnStatus) {
    (st.state == "UP" ==> !SomeDown(st)) && (st.state == "Degraded" ==> SomeDown(st))
  }

  /** A child is recorded down that the spec does not have. */
  predicate StaleDown(st: ConnStatus, spec: set<string>) {
    st.children.Some? && exists c :: c in st.children.value && c !in spec && st.children.value[c] == "Down"
  }

  lemma AssumedDownIff(st: ConnStatus, spec: set<string>)
    ensures SomeDown(Assumed(st, spec)) <==> StaleDown(st, spec)
  {}

  lemma StepHonestIff(st: ConnStatus, spec: set<string>, step: Step)
    requires Honest(st) && Enabled(st, step)
    ensures Honest(Next(st, spec, step)) <==> !(step.AssumeUp? && StaleDown(st, spec))
  {
    AssumedDownIff(st, spec);
    match step
    case ChildFails(c) => assert Next(st, spec, step).children.value[c] == "Down";
    case ChildRestarts(c) =>
      var after := Restarted(st, c);
      if SomeDown(after) {
        var d :| d in after.children.value && after.children.value[d] == "Down";
        assert d in st.children.value && st.children.value[d] == "Down";
      }
    case _ =>
  }

  /** Every state of a run is honest. */
  predicate AllHonest(st: ConnStatus, spec: set<string>, steps: seq<Step>)
    requires Possible(st, spec, steps)
    decreases |steps|
  {
    Honest(st) && (steps == [] || AllHonest(Next(st, spec, steps[0]), SpecAfter(spec, steps[0]), steps[1..]))
  }

  /** No optimistic update of a run is taken while a child is recorded down that is not in the spec
      of that moment. */
  predicate NeverAssumesStale(st: ConnStatus, spec: set<string>, steps: seq<Step>)
    requires Possible(st, spec, steps)
    decreases |steps|
  {
    || steps == []
    || (!(steps[0].AssumeUp? && StaleDown(st, spec))
        && NeverAssumesStale(Next(st, spec, steps[0]), SpecAfter(spec, steps[0]), steps[1..]))
  }

  /** Over any run with any edits of the spec: "UP" always means no recorded child is down, and
      "Degraded" that one is, if and only if no optimistic update meets a stale child that is down. */
  lemma {:induction false} AllHonestIff(st: ConnStatus, spec: set<string>, steps: seq<Step>)
    requires Honest(st) && Possible(st, spec, steps)
    ensures AllHonest(st, spec, steps) <==> NeverAssumesStale(st, spec, steps)
    decreases |steps|
  {
    if steps != [] {
      StepHonestIff(st, spec, steps[0]);
      if Honest(Next(st, spec, steps[0])) {
        AllHonestIff(Next(st, spec, steps[0]), SpecAfter(spec, steps[0]), steps[1..]);
      }
    }
  }

  /** Such a run exists: a child fails, leaves the spec, and the optimistic update reports the
      connection up all the same. */
  lemma StaleChildHidden(spec: set<string>, gone: string)
    requires gone !in spec && gone != ""
    ensures var steps := [ChildFails(gone), SpecEdit(spec), AssumeUp];
      && Possible(UNKNOWN, {gone}, steps)
      && Run(UNKNOWN, {gone}, steps).state == "UP" && SomeDown(Run(UNKNOWN, {gone}, steps))
  {
    var steps := [ChildFails(gone), SpecEdit(spec), AssumeUp];
    var st := Downgraded(UNKNOWN, gone);
    assert steps[1..] == [SpecEdit(spec), AssumeUp] && steps[1..][1..] == [AssumeUp] && [AssumeUp][1..] == [];
    assert Possible(st, spec, [AssumeUp]) && Possible(st, {gone}, steps[1..]);
    assert Run(st, {gone}, steps[1..]) == Run(st, spec, [AssumeUp]) == Assumed(st, spec);
    assert st.children.value[gone] == "Down";
    AssumedDownIff(st, spec);
  }

  // ---------------------------------------------------------------- the plan for one connection

  function ChildPlan(conn: string, st: ConnStatus, child: string): seq<Action> {
    if st.children.None? || child !in st.children.value || st.state == "" then [Update(conn)]
    else if st.children.value[child] != "UP" then [Restart(conn, child)]
    else []
  }

  function ChildrenPlan(conn: string, st: ConnStatus, order: seq<string>): seq<Action> {
    if order == [] then [] else ChildPlan(conn, st, order[0]) + ChildrenPlan(conn, st, order[1..])
  }

  function Head(conn: string, st: ConnStatus): seq<Action> {
    if st.state == "" || st.children.None? then [Update(conn)] else []
  }

  /** The actions for a connection whose desired children are ranged over in `order`. */
  function Plan(conn: string, st: ConnStatus, order: seq<string>): seq<Action> {
    Head(conn, st) +
    if st.state == "Down" then (if order == [] then [] else [Restart(conn, Sort(order)[0])])
    else ChildrenPlan(conn, st, order)
  }

  predicate Doable(st: ConnStatus, spec: set<string>, acts: seq<Action>)
    decreases |acts|
  {
    acts == [] || ((acts[0].Restart? ==> st.children.Some?) && Doable(Do(st, spec, acts[0]), spec, acts[1..]))
  }

  /** The status after actions that all succeed. */
  function DoAll(st: ConnStatus, spec: set<string>, acts: seq<Action>): ConnStatus
    requires Doable(st, spec, acts)
    decreases |acts|
  {
    if acts == [] then st else DoAll(Do(st, spec, acts[0]), spec, acts[1..])
  }

  lemma DoOne(st: ConnStatus, spec: set<string>, a: Action)
    requires a.Restart? ==> st.children.Some?
    ensures Doable(st, spec, [a]) && DoAll(st, spec, [a]) == Do(st, spec, a)
  {}

  lemma {:induction false} DoAllConcat(st: ConnStatus, spec: set<string>, a: seq<Action>, b: seq<Action>)
    requires Doable(st, spec, a) && Doable(DoAll(st, spec, a), spec, b)
    ensures Doable(st, spec, a + b) && DoAll(st, spec, a + b) == DoAll(DoAll(st, spec, a), spec, b)
    decreases |a|
  {
    if a == [] {
      assert a + b == b;
    } else {
      assert (a + b)[1..] == a[1..] + b;
      DoAllConcat(Do(st, spec, a[0]), spec, a[1..], b);
    }
  }

  // ---------------------------------------------------------------- one pass

  predicate IsUp(st: ConnStatus, c: string) {
    st.children.Some? && c in st.children.value && st.children.value[c] == "UP"
  }

  predicate Healthy(st: ConnStatus, spec: set<string>) {
    st.state == "UP" && st.children.Some? && forall c :: c in spec ==> IsUp(st, c)
  }

  /** What every action of a pass keeps: nothing is up on paper only. */
  ghost predicate Repairing(st: ConnStatus, spec: set<string>, now: ConnStatus) {
    && now.children.Some? && now.children.value.Keys <= spec
    && (now.state == "UP" || SomeDown(now))
    && forall c :: IsUp(st, c) ==> IsUp(now, c)
  }

  lemma ActionRepairs(st: ConnStatus, spec: set<string>, now: ConnStatus, a: Action, child: string)
    requires Repairing(st, spec, now) && child in spec && (a.Restart? ==> a.child == child)
    ensures IsUp(Do(now, spec, a), child) && Repairing(st, spec, Do(now, spec, a))
    ensures forall c :: IsUp(now, c) ==> IsUp(Do(now, spec, a), c)
  {}

  lemma {:induction false} ChildrenRepaired(conn: string, st: ConnStatus, spec: set<string>, order: seq<string>,
                                            now: ConnStatus)
    requires Repairing(st, spec, now) && forall c :: c in order ==> c in spec
    ensures Doable(now, spec, ChildrenPlan(conn, st, order))
    ensures var end := DoAll(now, spec, ChildrenPlan(conn, st, order));
      Repairing(st, spec, end) && (forall c :: IsUp(now, c) || c in order ==> IsUp(end, c))
    decreases |order|
  {
    if order != [] {
      var first, rest := ChildPlan(conn, st, order[0]), ChildrenPlan(conn, st, order[1..]);
      var mid := if first == [] then now else Do(now, spec, first[0]);
      if first == [] {
        assert IsUp(st, order[0]);
      } else {
        DoOne(now, spec, first[0]);
        assert first == [first[0]];
        ActionRepairs(st, spec, now, first[0], order[0]);
      }
      ChildrenRepaired(conn, st, spec, order[1..], mid);
      DoAllConcat(now, spec, first, rest);
      assert forall c :: c in order ==> c == order[0] || c in order[1..];
    }
  }

  lemma HealthyPlansNothing(conn: string, st: ConnStatus, spec: set<string>, order: seq<string>)
    requires Healthy(st, spec) && Enumerates(order, spec)
    ensures Plan(conn, st, order) == []
  {
    NothingForUp(conn, st, order);
  }

  lemma {:induction false} NothingForUp(conn: string, st: ConnStatus, order: seq<string>)
    requires st.state != "" && forall c :: c in order ==> IsUp(st, c)
    ensures ChildrenPlan(conn, st, order) == []
  {
    if order != [] {
      assert IsUp(st, order[0]);
      NothingForUp(conn, st, order[1..]);
    }
  }

  /** When one pass can heal a connection: not from "Down" with another child than the first one
      missing or down, and never without children. */
  predicate Curable(st: ConnStatus, spec: set<string>) {
    && spec != {}
    && (st.state == "Down" && st.children.Some? ==> forall c :: c in spec && !IsFirst(c, spec) ==> IsUp(st, c))
  }

  function AfterHead(st: ConnStatus, spec: set<string>): ConnStatus {
    if st.state == "" || st.children.None? then Assumed(st, spec) else st
  }

  lemma HeadDone(conn: string, st: ConnStatus, spec: set<string>)
    ensures Doable(st, spec, Head(conn, st)) && DoAll(st, spec, Head(conn, st)) == AfterHead(st, spec)
  {}

  lemma DownPass(conn: string, st: ConnStatus, spec: set<string>, order: seq<string>)
    requires Consistent(st, spec) && Enumerates(order, spec) && spec != {} && st.state == "Down"
    ensures Doable(st, spec, Plan(conn, st, order))
    ensures Healthy(DoAll(st, spec, Plan(conn, st, order)), spec) <==> Curable(st, spec)
  {
    var c :| c in spec;
    assert c in order && (set x | x in order) == spec;
    SortFindsFirst(order);
    var first, now := Sort(order)[0], AfterHead(st, spec);
    HeadDone(conn, st, spec);
    DoOne(now, spec, Restart(conn, first));
    DoAllConcat(st, spec, Head(conn, st), [Restart(conn, first)]);
    RestartHeals(now, spec, first);
  }

  lemma UndownPass(conn: string, st: ConnStatus, spec: set<string>, order: seq<string>)
    requires Consistent(st, spec) && Enumerates(order, spec) && spec != {} && st.state != "Down"
    ensures Doable(st, spec, Plan(conn, st, order))
    ensures Healthy(DoAll(st, spec, Plan(conn, st, order)), spec)
  {
    var now := AfterHead(st, spec);
    HeadDone(conn, st, spec);
    ChildrenRepaired(conn, st, spec, order, now);
    DoAllConcat(st, spec, Head(conn, st), ChildrenPlan(conn, st, order));
  }

  lemma ChildlessPass(conn: string, st: ConnStatus, spec: set<string>, order: seq<string>)
    requires Consistent(st, spec) && Enumerates(order, spec) && spec == {}
    ensures Doable(st, spec, Plan(conn, st, order))
    ensures DoAll(st, spec, Plan(conn, st, order)).children.None?
  {
    if order != [] {
      EnumeratesSome(order, spec);
    }
    HeadDone(conn, st, spec);
    assert Plan(conn, st, order) == Head(conn, st);
  }

  /** One pass of successful actions from any reachable status leaves every child up and nothing
      further to do exactly when the connection is curable. */
  lemma OnePassHealsIff(conn: string, st: ConnStatus, spec: set<string>, order: seq<string>)
    requires Consistent(st, spec) && Enumerates(order, spec)
    ensures Doable(st, spec, Plan(conn, st, order))
    ensures var end := DoAll(st, spec, Plan(conn, st, order));
      Healthy(end, spec) && Plan(conn, end, order) == [] <==> Curable(st, spec)
  {
    if spec == {} {
      ChildlessPass(conn, st, spec, order);
    } else {
      if st.state == "Down" {
        DownPass(conn, st, spec, order);
      } else {
        UndownPass(conn, st, spec, order);
      }
      var end := DoAll(st, spec, Plan(conn, st, order));
      if Healthy(end, spec) {
        HealthyPlansNothing(conn, end, spec, order);
      }
    }
  }

  lemma RestartHeals(now: ConnStatus, spec: set<string>, first: string)
    requires now.children.Some? && now.children.value.Keys <= spec && IsFirst(first, spec)
    requires now.state in {"UP", "Down"}
    ensures Healthy(Restarted(now, first), spec) <==> forall c :: c in spec && !IsFirst(c, spec) ==> IsUp(now, c)
  {
    forall c | c in spec && c != first ensures !IsFirst(c, spec) {
      Trichotomy(c, first);
    }
    var end := Restarted(now, first);
    if forall c :: c in spec && !IsFirst(c, spec) ==> IsUp(now, c) {
      assert forall c :: c in end.children.value ==> IsUp(end, c);
    }
  }

  // ---------------------------------------------------------------- repeated passes

  ghost predicate AllEnumerate(orders: seq<seq<string>>, spec: set<string>) {
    forall i :: 0 <= i < |orders| ==> Enumerates(orders[i], spec)
  }

  /** Passes of successful actions; the children are ranged over in an order of its own in each. */
  function Passes(conn: string, st: ConnStatus, spec: set<string>, orders: seq<seq<string>>): ConnStatus
    requires Consistent(st, spec) && AllEnumerate(orders, spec)
    ensures Consistent(Passes(conn, st, spec, orders), spec)
    decreases |orders|
  {
    if orders == [] then st
    else
      PassConsistent(conn, st, spec, orders[0]);
      Passes(conn, DoAll(st, spec, Plan(conn, st, orders[0])), spec, orders[1..])
  }

  predicate AboutSpec(acts: seq<Action>, spec: set<string>) {
    forall i :: 0 <= i < |acts| && acts[i].Restart? ==> acts[i].child in spec
  }

  lemma {:induction false} DoAllConsistent(st: ConnStatus, spec: set<string>, acts: seq<Action>)
    requires Consistent(st, spec) && Doable(st, spec, acts) && AboutSpec(acts, spec)
    ensures Consistent(DoAll(st, spec, acts), spec)
    decreases |acts|
  {
    if acts != [] {
      var step := if acts[0].Restart? then ChildRestarts(acts[0].child) else AssumeUp;
      StepConsistent(st, spec, step);
      DoAllConsistent(Do(st, spec, acts[0]), spec, acts[1..]);
    }
  }

  lemma {:induction false} ChildrenPlanInSpec(conn: string, st: ConnStatus, spec: set<string>, order: seq<string>)
    requires forall c :: c in order ==> c in spec
    ensures AboutSpec(ChildrenPlan(conn, st, order), spec)
  {
    if order != [] {
      ChildrenPlanInSpec(conn, st, spec, order[1..]);
    }
  }

  lemma FirstInSpec(spec: set<string>, order: seq<string>)
    requires Enumerates(order, spec) && order != []
    ensures |Sort(order)| > 0 && Sort(order)[0] in spec && IsFirst(Sort(order)[0], spec)
  {
    assert order[0] in order && (set x | x in order) == spec;
    SortFindsFirst(order);
  }

  /** A pass only restarts children of the spec. */
  lemma PlanInSpec(conn: string, st: ConnStatus, spec: set<string>, order: seq<string>)
    requires Enumerates(order, spec)
    ensures AboutSpec(Plan(conn, st, order), spec)
  {
    if st.state == "Down" {
      if order != [] {
        FirstInSpec(spec, order);
      }
    } else {
      ChildrenPlanInSpec(conn, st, spec, order);
    }
  }

  lemma PassConsistent(conn: string, st: ConnStatus, spec: set<string>, order: seq<string>)
    requires Consistent(st, spec) && Enumerates(order, spec)
    ensures Doable(st, spec, Plan(conn, st, order))
    ensures Consistent(DoAll(st, spec, Plan(conn, st, order)), spec)
  {
    OnePassHealsIff(conn, st, spec, order);
    PlanInSpec(conn, st, spec, order);
    DoAllConsistent(st, spec, Plan(conn, st, order));
  }

  /** "Down" with a child recorded down that is not the first by name. */
  predicate OtherDown(st: ConnStatus, spec: set<string>) {
    st.state == "Down" && st.children.Some? &&
      exists c :: c in spec && !IsFirst(c, spec) && c in st.children.value && st.children.value[c] == "Down"
  }

  /** A "Down" connection only gets its first child restarted. */
  lemma DownRestarts(conn: string, st: ConnStatus, spec: set<string>, order: seq<string>) returns (first: string)
    requires Consistent(st, spec) && Enumerates(order, spec) && st.state == "Down" && st.children.Some?
    ensures IsFirst(first, spec) && Plan(conn, st, order) == [Restart(conn, first)]
    ensures Doable(st, spec, Plan(conn, st, order)) && DoAll(st, spec, Plan(conn, st, order)) == Restarted(st, first)
  {
    FirstInSpec(spec, order);
    first := Sort(order)[0];
    DoOne(st, spec, Restart(conn, first));
    assert Plan(conn, st, order) == [Restart(conn, first)];
  }

  /** With another child down a pass leaves the connection down, and the child too; otherwise it gets
      it out of "Down". */
  lemma PassFromDown(conn: string, st: ConnStatus, spec: set<string>, order: seq<string>)
    requires Consistent(st, spec) && Enumerates(order, spec) && st.state == "Down" && st.children.Some?
    ensures Doable(st, spec, Plan(conn, st, order))
    ensures var end := DoAll(st, spec, Plan(conn, st, order));
      if OtherDown(st, spec) then OtherDown(end, spec) else end.state == "UP"
  {
    var first := DownRestarts(conn, st, spec, order);
    var end := Restarted(st, first);
    if OtherDown(st, spec) {
      var c :| c in spec && !IsFirst(c, spec) && c in st.children.value && st.children.value[c] == "Down";
      assert end.children.value[c] == "Down";
    } else {
      forall c | c in end.children.value && c != first ensures end.children.value[c] != "Down" {
        OneFirst(c, first, spec);
      }
    }
  }

  lemma OneFirst(c: string, first: string, spec: set<string>)
    requires IsFirst(first, spec) && c in spec && c != first
    ensures !IsFirst(c, spec)
  {
    Trichotomy(c, first);
  }

  /** One pass gets a connection that has children and no other child down out of "Down". */
  lemma PassUndown(conn: string, st: ConnStatus, spec: set<string>, order: seq<string>)
    requires Consistent(st, spec) && Enumerates(order, spec) && spec != {} && !OtherDown(st, spec)
    ensures Doable(st, spec, Plan(conn, st, order))
    ensures DoAll(st, spec, Plan(conn, st, order)).state == "UP"
  {
    if st.state != "Down" {
      UndownPass(conn, st, spec, order);
    } else if st.children.Some? {
      PassFromDown(conn, st, spec, order);
    } else {
      DownPass(conn, st, spec, order);
    }
  }

  /** Once a connection with children is not "Down", every further pass leaves it healthy. */
  lemma {:induction false} StaysHealthy(conn: string, st: ConnStatus, spec: set<string>, orders: seq<seq<string>>)
    requires Consistent(st, spec) && AllEnumerate(orders, spec) && spec != {} && st.state != "Down"
    ensures orders != [] || Healthy(st, spec) ==> Healthy(Passes(conn, st, spec, orders), spec)
    decreases |orders|
  {
    if orders != [] {
      UndownPass(conn, st, spec, orders[0]);
      PassConsistent(conn, st, spec, orders[0]);
      StaysHealthy(conn, DoAll(st, spec, Plan(conn, st, orders[0])), spec, orders[1..]);
    }
  }

  /** A connection reported down with another child than the first one down stays down, however
      many passes succeed: only the first child is ever restarted. */
  lemma {:induction false} DownStuck(conn: string, st: ConnStatus, spec: set<string>, orders: seq<seq<string>>)
    requires Consistent(st, spec) && AllEnumerate(orders, spec) && OtherDown(st, spec)
    ensures OtherDown(Passes(conn, st, spec, orders), spec)
    decreases |orders|
  {
    if orders != [] {
      PassFromDown(conn, st, spec, orders[0]);
      PassConsistent(conn, st, spec, orders[0]);
      DownStuck(conn, DoAll(st, spec, Plan(conn, st, orders[0])), spec, orders[1..]);
    }
  }

  /** Nothing is left to do for a connection exactly when it is healthy. */
  lemma PlansNothingIff(conn: string, st: ConnStatus, spec: set<string>, order: seq<string>)
    requires Consistent(st, spec) && Enumerates(order, spec)
    ensures Plan(conn, st, order) == [] <==> Healthy(st, spec)
  {
    if Healthy(st, spec) {
      HealthyPlansNothing(conn, st, spec, order);
    } else if st.state == "Down" && st.children.Some? {
      var first := DownRestarts(conn, st, spec, order);
    } else if st.state != "" && st.children.Some? {
      var c := NotUp(st, spec);
      SomethingFor(conn, st, order, c);
    }
  }

  lemma NotUp(st: ConnStatus, spec: set<string>) returns (c: string)
    requires Consistent(st, spec) && !Healthy(st, spec) && st.children.Some? && st.state in {"UP", "Degraded"}
    ensures c in spec && !IsUp(st, c)
  {
    if st.state == "Degraded" {
      c :| c in st.children.value && st.children.value[c] == "Down";
    } else {
      c :| c in spec && !IsUp(st, c);
    }
  }

  lemma {:induction false} SomethingFor(conn: string, st: ConnStatus, order: seq<string>, c: string)
    requires c in order && !IsUp(st, c)
    ensures ChildrenPlan(conn, st, order) != []
  {
    if order[0] != c {
      SomethingFor(conn, st, order[1..], c);
    }
  }

  /** Two or more passes of successful actions, each ranging over the children in any order, leave a
      connection healthy with nothing left to do if and only if it has children and is not "Down" with
      another child than the first by name recorded down; otherwise no number of passes does. */
  lemma PassesHealIff(conn: string, st: ConnStatus, spec: set<string>, orders: seq<seq<string>>, next: seq<string>)
    requires Consistent(st, spec) && AllEnumerate(orders, spec) && |orders| >= 2 && Enumerates(next, spec)
    ensures var end := Passes(conn, st, spec, orders);
      && (Healthy(end, spec) <==> spec != {} && !OtherDown(st, spec))
      && (Plan(conn, end, next) == [] <==> spec != {} && !OtherDown(st, spec))
  {
    if spec != {} {
      if OtherDown(st, spec) {
        DownStuck(conn, st, spec, orders);
      } else {
        PassUndown(conn, st, spec, orders[0]);
        PassConsistent(conn, st, spec, orders[0]);
        StaysHealthy(conn, DoAll(st, spec, Plan(conn, st, orders[0])), spec, orders[1..]);
      }
    }
    PlansNothingIff(conn, Passes(conn, st, spec, orders), spec, next);
  }

  // ---------------------------------------------------------------- all connections

  datatype Desired = Desired(name: string, order: seq<string>)   // the children, as ranged over
  datatype Recorded = Recorded(name: string, status: ConnStatus)

  predicate Known(current: seq<Recorded>, name: string) {
    name != "" && exists i :: 0 <= i < |current| && current[i].name == name
  }

  /** The first recorded status under a name. */
  function StatusOf(current: seq<Recorded>, name: string): ConnStatus
    requires Known(current, name)
  {
    if current[0].name == name then current[0].status else StatusOf(current[1..], name)
  }

  function PlanFor(d: Desired, current: seq<Recorded>): seq<Action> {
    if Known(current, d.name) then Plan(d.name, StatusOf(current, d.name), d.order) else []
  }

  function PlanAll(desired: seq<Desired>, current: seq<Recorded>): seq<Action> {
    if desired == [] then [] else PlanFor(desired[0], current) + PlanAll(desired[1..], current)
  }

  lemma {:induction false} PlanAllConcat(a: seq<Desired>, b: seq<Desired>, current: seq<Recorded>)
    ensures PlanAll(a + b, current) == PlanAll(a, current) + PlanAll(b, current)
  {
    if a == [] {
      assert a + b == b;
    } else {
      assert (a + b)[1..] == a[1..] + b;
      PlanAllConcat(a[1..], b, current);
    }
  }

  lemma {:induction false} ChildrenPlanConcat(conn: string, st: ConnStatus, a: seq<string>, b: seq<string>)
    ensures ChildrenPlan(conn, st, a + b) == ChildrenPlan(conn, st, a) + ChildrenPlan(conn, st, b)
  {
    if a == [] {
      assert a + b == b;
    } else {
      assert (a + b)[1..] == a[1..] + b;
      ChildrenPlanConcat(conn, st, a[1..], b);
    }
  }

  method GetIPSec(items: seq<Recorded>, name: string) returns (found: Option<Recorded>)
    ensures found.Some? <==> exists i :: 0 <= i < |items| && items[i].name == name
    ensures found.Some? ==> found.value.name == name && (name != "" ==> found.value.status == StatusOf(items, name))
  {
    for i := 0 to |items|
      invariant forall j :: 0 <= j < i ==> items[j].name != name
      invariant name != "" && Known(items, name) ==> Known(items[i..], name) && StatusOf(items, name) == StatusOf(items[i..], name)
    {
      assert items[i..][0] == items[i] && items[i..][1..] == items[i + 1..];
      if items[i].name == name {
        return Some(items[i]);
      }
      assert forall j :: i + 1 <= j < |items| ==> items[j] == items[i + 1..][j - i - 1];
      if name != "" && Known(items, name) {
        var j :| 0 <= j < |items| && items[j].name == name;
        assert items[i + 1..][j - i - 1].name == name;
      }
    }
    found := None;
  }

  lemma PlanAllAppend(desired: seq<Desired>, d: Desired, current: seq<Recorded>)
    ensures PlanAll(desired + [d], current) == PlanAll(desired, current) + PlanFor(d, current)
  {
    PlanAllConcat(desired, [d], current);
    assert [d][1..] == [];
  }

  lemma PlanAllMore(desired: seq<Desired>, i: nat, current: seq<Recorded>)
    requires i < |desired|
    ensures PlanAll(desired[..i + 1], current) == PlanAll(desired[..i], current) + PlanFor(desired[i], current)
  {
    assert desired[..i + 1] == desired[..i] + [desired[i]];
    PlanAllAppend(desired[..i], desired[i], current);
  }

  method IsKnown(current: seq<Recorded>, name: string) returns (known: bool)
    ensures known <==> Known(current, name)
  {
    var c := GetIPSec(current, name);
    known := c.Some? && name != "";
  }

  /** Desired connections whose custom resource is gone are left alone. */
  method FilterDesired(desired: seq<Desired>, current: seq<Recorded>) returns (filtered: seq<Desired>)
    ensures PlanAll(filtered, current) == PlanAll(desired, current)
    ensures forall d :: d in filtered ==> Known(current, d.name)
  {
    filtered := [];
    for i := 0 to |desired|
      invariant PlanAll(filtered, current) == PlanAll(desired[..i], current)
      invariant forall d :: d in filtered ==> Known(current, d.name)
    {
      PlanAllMore(desired, i, current);
      PlanAllAppend(filtered, desired[i], current);
      var known := IsKnown(current, desired[i].name);
      if known {
        filtered := filtered + [desired[i]];
      }
    }
    assert desired[..|desired|] == desired;
  }

  method DiffIPSecs(desired: seq<Desired>, current: seq<Recorded>) returns (acts: seq<Action>)
    ensures acts == PlanAll(desired, current)
  {
    var filtered := FilterDesired(desired, current);
    acts := [];
    for i := 0 to |filtered|
      invariant acts == PlanAll(filtered[..i], current)
    {
      PlanAllMore(filtered, i, current);
      var plan := DiffIPSec(filtered[i], current);
      acts := acts + plan;
    }
    assert filtered[..|filtered|] == filtered;
  }

  method DiffIPSec(d: Desired, current: seq<Recorded>) returns (acts: seq<Action>)
    requires Known(current, d.name)
    ensures acts == Plan(d.name, StatusOf(current, d.name), d.order)
  {
    var c := GetIPSec(current, d.name);
    var st := c.value.status;
    acts := [];
    if st.state == "" || st.children.None? {
      acts := acts + [Update(d.name)];
    }
    if st.state == "Down" {
      if d.order != [] {
        assert |Sort(d.order)| == |multiset(Sort(d.order))| && |d.order| == |multiset(d.order)|;
        acts := acts + [Restart(d.name, Sort(d.order)[0])];
      }
      return;
    }
    var children := DiffChildren(d.name, st, d.order);
    acts := acts + children;
  }

  method DiffChildren(conn: string, st: ConnStatus, order: seq<string>) returns (acts: seq<Action>)
    ensures acts == ChildrenPlan(conn, st, order)
  {
    acts := [];
    for i := 0 to |order|
      invariant acts == ChildrenPlan(conn, st, order[..i])
    {
      ChildrenPlanNext(conn, st, order, i);
      var c := order[i];
      if st.children.None? || c !in st.children.value || st.state == "" {
        acts := acts + [Update(conn)];
      } else if st.children.value[c] != "UP" {
        acts := acts + [Restart(conn, c)];
      }
    }
    assert order[..|order|] == order;
  }

  lemma ChildrenPlanNext(conn: string, st: ConnStatus, order: seq<string>, i: nat)
    requires i < |order|
    ensures ChildrenPlan(conn, st, order[..i + 1]) == ChildrenPlan(conn, st, order[..i]) + ChildPlan(conn, st, order[i])
  {
    assert order[..i + 1] == order[..i] + [order[i]];
    ChildrenPlanConcat(conn, st, order[..i], [order[i]]);
    assert ChildrenPlan(conn, st, [order[i]]) == ChildPlan(conn, st, order[i]);
  }

  // ---------------------------------------------------------------- the plan, told without its parts

  predicate Unrecorded(st: ConnStatus, k: string) {
    st.children.Some? ==> k !in st.children.value
  }

  lemma {:induction false} ChildrenPlanIs(conn: string, st: ConnStatus, order: seq<string>, a: Action)
    requires st.state != ""
    ensures a in ChildrenPlan(conn, st, order) <==>
      match a
      case Restart(c, k) =>
        c == conn && k in order && st.children.Some? && k in st.children.value && st.children.value[k] != "UP"
      case Update(c) =>
        c == conn && exists k :: k in order && Unrecorded(st, k)
  {
    if order != [] {
      ChildrenPlanIs(conn, st, order[1..], a);
      assert order == [order[0]] + order[1..];
      var first := order[0];
      assert a in ChildPlan(conn, st, first) <==> match a
        case Restart(c, k) => c == conn && k == first && st.children.Some? && k in st.children.value && st.children.value[k] != "UP"
        case Update(c) => c == conn && Unrecorded(st, first);
      assert (exists k :: k in order && Unrecorded(st, k)) <==>
        Unrecorded(st, first) || (exists k :: k in order[1..] && Unrecorded(st, k)) by {
        if k :| k in order && Unrecorded(st, k) {
          assert k == first || k in order[1..];
        }
      }
    }
  }

  lemma {:induction false} UnknownPlanIs(conn: string, st: ConnStatus, order: seq<string>, a: Action)
    requires st.state == ""
    ensures a in ChildrenPlan(conn, st, order) ==> a == Update(conn)
  {
    if order != [] {
      UnknownPlanIs(conn, st, order[1..], a);
    }
  }

  lemma FirstIs(order: seq<string>, k: string)
    requires order != []
    ensures Sort(order) != []
    ensures k == Sort(order)[0] <==> k in order && forall j :: j in order ==> !Below(j, k)
  {
    SortFindsFirst(order);
    Trichotomy(k, Sort(order)[0]);
  }

  /** What is planned for a connection: restarts of the children recorded otherwise than "UP", or of the
      first child by name if it is "Down", and an optimistic update if something was never recorded. */
  lemma PlanIs(conn: string, st: ConnStatus, order: seq<string>, a: Action)
    ensures a in Plan(conn, st, order) <==>
      match a
      case Restart(c, k) =>
        && c == conn && k in order
        && if st.state == "Down" then forall j :: j in order ==> !Below(j, k)
           else st.state != "" && st.children.Some? && k in st.children.value && st.children.value[k] != "UP"
      case Update(c) =>
        && c == conn
        && (st.state == "" || st.children.None? || (st.state != "Down" && exists k :: k in order && Unrecorded(st, k)))
  {
    if st.state == "" {
      UnknownPlanIs(conn, st, order, a);
    } else if st.state != "Down" {
      ChildrenPlanIs(conn, st, order, a);
    } else if order != [] && a.Restart? {
      FirstIs(order, a.child);
    }
  }

  /** A recorded status that is the first one under its name. */
  ghost predicate RecordedAs(current: seq<Recorded>, name: string, st: ConnStatus) {
    name != "" && exists i :: FirstAt(current, i, name) && current[i].status == st
  }

  ghost predicate FirstAt(current: seq<Recorded>, i: int, name: string) {
    0 <= i < |current| && current[i].name == name && forall j :: 0 <= j < i ==> current[j].name != name
  }

  lemma {:induction false} StatusIs(current: seq<Recorded>, name: string, st: ConnStatus)
    ensures RecordedAs(current, name, st) <==> Known(current, name) && StatusOf(current, name) == st
  {
    if current != [] && name != "" {
      StatusIs(current[1..], name, st);
      if current[0].name != name {
        RecordedLater(current, name, st);
      }
    }
  }

  lemma RecordedLater(current: seq<Recorded>, name: string, st: ConnStatus)
    requires current != [] && current[0].name != name
    ensures RecordedAs(current, name, st) <==> RecordedAs(current[1..], name, st)
    ensures Known(current, name) <==> Known(current[1..], name)
  {
    var rest := current[1..];
    forall i ensures FirstAt(current, i + 1, name) <==> FirstAt(rest, i, name) {
      assert 0 <= i < |rest| ==> current[i + 1] == rest[i];
      assert forall j :: 0 <= j < i < |rest| ==> current[j + 1] == rest[j];
    }
    if RecordedAs(current, name, st) {
      var i :| FirstAt(current, i, name) && current[i].status == st;
      assert FirstAt(rest, i - 1, name);
    }
    if RecordedAs(rest, name, st) {
      var i :| FirstAt(rest, i, name) && rest[i].status == st;
      assert FirstAt(current, i + 1, name);
    }
    assert current == [current[0]] + rest;
    assert forall i :: 0 <= i < |rest| ==> current[i + 1] == rest[i];
  }

  lemma {:induction false} InPlanAll(desired: seq<Desired>, current: seq<Recorded>, a: Action)
    ensures a in PlanAll(desired, current) <==> exists d :: d in desired && a in PlanFor(d, current)
  {
    if desired != [] {
      InPlanAll(desired[1..], current, a);
      assert desired == [desired[0]] + desired[1..];
    }
  }

  lemma InPlanFor(d: Desired, current: seq<Recorded>, a: Action)
    ensures a in PlanFor(d, current) <==>
      exists st :: RecordedAs(current, d.name, st) && a in Plan(d.name, st, d.order)
  {
    if Known(current, d.name) {
      StatusIs(current, d.name, StatusOf(current, d.name));
    }
    forall st | RecordedAs(current, d.name, st) ensures Known(current, d.name) && StatusOf(current, d.name) == st {
      StatusIs(current, d.name, st);
    }
  }

  /** The plan is made up of the plans of the desired connections that are recorded. */
  lemma PlannedIff(desired: seq<Desired>, current: seq<Recorded>, a: Action)
    ensures a in PlanAll(desired, current) <==>
      exists d, st :: d in desired && RecordedAs(current, d.name, st) && a in Plan(d.name, st, d.order)
  {
    InPlanAll(desired, current, a);
    forall d | d in desired ensures a in PlanFor(d, current) <==>
        exists st :: RecordedAs(current, d.name, st) && a in Plan(d.name, st, d.order)
    {
      InPlanFor(d, current, a);
    }
  }

  /** The child is to be restarted: it is recorded otherwise than "UP", or the first by name of a
      connection that is "Down". */
  predicate ToRestart(st: ConnStatus, order: seq<string>, k: string) {
    && k in order
    && if st.state == "Down" then forall j :: j in order ==> !Below(j, k)
       else st.state != "" && st.children.Some? && k in st.children.value && st.children.value[k] != "UP"
  }

  /** The status or the children were never recorded, or the connection is not "Down" and one of its
      children never was. */
  predicate ToAssume(st: ConnStatus, order: seq<string>) {
    st.state == "" || st.children.None? || (st.state != "Down" && exists k :: k in order && Unrecorded(st, k))
  }

  /** Which restarts are planned. */
  lemma RestartPlannedIff(desired: seq<Desired>, current: seq<Recorded>, c: string, k: string)
    ensures Restart(c, k) in PlanAll(desired, current) <==>
      exists d, st :: d in desired && d.name == c && RecordedAs(current, c, st) && ToRestart(st, d.order, k)
  {
    PlannedIff(desired, current, Restart(c, k));
    forall d, st | d in desired && RecordedAs(current, d.name, st)
      ensures Restart(c, k) in Plan(d.name, st, d.order) <==> d.name == c && ToRestart(st, d.order, k)
    {
      PlanIs(d.name, st, d.order, Restart(c, k));
    }
  }

  /** Which optimistic updates are planned. */
  lemma UpdatePlannedIff(desired: seq<Desired>, current: seq<Recorded>, c: string)
    ensures Update(c) in PlanAll(desired, current) <==>
      exists d, st :: d in desired && d.name == c && RecordedAs(current, c, st) && ToAssume(st, d.order)
  {
    PlannedIff(desired, current, Update(c));
    forall d, st | d in desired && RecordedAs(current, d.name, st)
      ensures Update(c) in Plan(d.name, st, d.order) <==> d.name == c && ToAssume(st, d.order)
    {
      PlanIs(d.name, st, d.order, Update(c));
    }
  }

  lemma {:induction false} ChildrenOnce(conn: string, st: ConnStatus, order: seq<string>, k: string)
    requires Distinct(order)
    ensures multiset(ChildrenPlan(conn, st, order))[Restart(conn, k)] <= if k in order then 1 else 0
  {
    if order != [] {
      ChildrenOnce(conn, st, order[1..], k);
      assert order == [order[0]] + order[1..];
    }
  }

  /** No child is restarted twice. */
  lemma {:induction false} RestartedOnce(desired: seq<Desired>, current: seq<Recorded>, c: string, k: string)
    requires forall i, j :: 0 <= i < j < |desired| ==> desired[i].name != desired[j].name
    requires forall d :: d in desired ==> Distinct(d.order)
    ensures multiset(PlanAll(desired, current))[Restart(c, k)] <= 1
    ensures (forall d :: d in desired ==> d.name != c) ==> multiset(PlanAll(desired, current))[Restart(c, k)] == 0
  {
    if desired != [] {
      var d := desired[0];
      RestartedOnce(desired[1..], current, c, k);
      OnceFor(d, current, c, k);
      assert forall e :: e in desired[1..] ==> e.name != d.name;
    }
  }

  lemma OnceFor(d: Desired, current: seq<Recorded>, c: string, k: string)
    requires Distinct(d.order)
    ensures multiset(PlanFor(d, current))[Restart(c, k)] <= if d.name == c then 1 else 0
  {
    if Known(current, d.name) {
      var st := StatusOf(current, d.name);
      PlanNames(d.name, st, d.order);
      ChildrenOnce(d.name, st, d.order, k);
      if d.name != c {
        assert Restart(c, k) !in Plan(d.name, st, d.order);
      }
    }
  }

  type Statuses = map<string, ConnStatus>
  type Specs = map<string, set<string>>

  predicate WorldDoable(w: Statuses, specs: Specs, acts: seq<Action>)
    decreases |acts|
  {
    acts == [] || (
      && acts[0].conn in w && acts[0].conn in specs
      && (acts[0].Restart? ==> w[acts[0].conn].children.Some?)
      && WorldDoable(DoIn(w, specs, acts[0]), specs, acts[1..]))
  }

  function DoIn(w: Statuses, specs: Specs, a: Action): Statuses
    requires a.conn in w && a.conn in specs && (a.Restart? ==> w[a.conn].children.Some?)
  {
    w[a.conn := Do(w[a.conn], specs[a.conn], a)]
  }

  function WorldDoAll(w: Statuses, specs: Specs, acts: seq<Action>): Statuses
    requires WorldDoable(w, specs, acts)
    decreases |acts|
  {
    if acts == [] then w else WorldDoAll(DoIn(w, specs, acts[0]), specs, acts[1..])
  }

  /** Actions of one connection, followed by any others. */
  lemma {:induction false} OneConnFirst(w: Statuses, specs: Specs, c: string, a: seq<Action>, b: seq<Action>)
    requires c in w && c in specs && Doable(w[c], specs[c], a)
    requires forall i :: 0 <= i < |a| ==> a[i].conn == c
    requires WorldDoable(w[c := DoAll(w[c], specs[c], a)], specs, b)
    ensures WorldDoable(w, specs, a + b)
    ensures WorldDoAll(w, specs, a + b) == WorldDoAll(w[c := DoAll(w[c], specs[c], a)], specs, b)
    decreases |a|
  {
    if a == [] {
      assert a + b == b && w[c := w[c]] == w;
    } else {
      assert (a + b)[1..] == a[1..] + b;
      var w' := DoIn(w, specs, a[0]);
      assert w'[c := DoAll(w'[c], specs[c], a[1..])] == w[c := DoAll(w[c], specs[c], a)];
      OneConnFirst(w', specs, c, a[1..], b);
    }
  }

  lemma {:induction false} PlanNames(conn: string, st: ConnStatus, order: seq<string>)
    ensures forall i :: 0 <= i < |ChildrenPlan(conn, st, order)| ==> ChildrenPlan(conn, st, order)[i].conn == conn
    ensures forall i :: 0 <= i < |Plan(conn, st, order)| ==> Plan(conn, st, order)[i].conn == conn
  {
    if order != [] {
      PlanNames(conn, st, order[1..]);
    }
  }

  /** The world holds the status a connection's plan was made from. */
  ghost predicate MatchesOne(w: Statuses, specs: Specs, d: Desired, current: seq<Recorded>) {
    Known(current, d.name) ==>
      && d.name in w && d.name in specs
      && w[d.name] == StatusOf(current, d.name)
      && Enumerates(d.order, specs[d.name])
      && Consistent(w[d.name], specs[d.name])
  }

  ghost predicate Matches(w: Statuses, specs: Specs, desired: seq<Desired>, current: seq<Recorded>) {
    && (forall i, j :: 0 <= i < j < |desired| ==> desired[i].name != desired[j].name)
    && forall d :: d in desired ==> MatchesOne(w, specs, d, current)
  }

  ghost predicate HealedIff(w: Statuses, e: Statuses, specs: Specs, d: Desired)
    requires d.name in w && d.name in specs
  {
    && d.name in e
    && (Healthy(e[d.name], specs[d.name]) && Plan(d.name, e[d.name], d.order) == [] <==> Curable(w[d.name], specs[d.name]))
  }

  /** The world after the plan of one connection. */
  lemma OneHealed(w: Statuses, specs: Specs, d: Desired, current: seq<Recorded>, rest: seq<Action>)
      returns (w': Statuses)
    requires MatchesOne(w, specs, d, current)
    ensures forall c :: c in w && c != d.name ==> c in w' && w'[c] == w[c]
    ensures Known(current, d.name) ==> HealedIff(w, w', specs, d)
    ensures !Known(current, d.name) ==> w' == w
    ensures WorldDoable(w', specs, rest) ==>
      && WorldDoable(w, specs, PlanFor(d, current) + rest)
      && WorldDoAll(w, specs, PlanFor(d, current) + rest) == WorldDoAll(w', specs, rest)
  {
    if Known(current, d.name) {
      var plan := Plan(d.name, w[d.name], d.order);
      OnePassHealsIff(d.name, w[d.name], specs[d.name], d.order);
      PlanNames(d.name, w[d.name], d.order);
      w' := w[d.name := DoAll(w[d.name], specs[d.name], plan)];
      if WorldDoable(w', specs, rest) {
        OneConnFirst(w, specs, d.name, plan, rest);
      }
    } else {
      w' := w;
      assert PlanFor(d, current) + rest == rest;
    }
  }

  /** The whole plan does to every connection what its own plan does, so one pass heals exactly
      the curable ones of those whose custom resource still exists. */
  lemma {:induction false} PassHealsEach(w: Statuses, specs: Specs, desired: seq<Desired>, current: seq<Recorded>)
    requires Matches(w, specs, desired, current)
    ensures WorldDoable(w, specs, PlanAll(desired, current))
    ensures var e := WorldDoAll(w, specs, PlanAll(desired, current));
      && (forall c :: c in w && (forall d :: d in desired ==> d.name != c) ==> c in e && e[c] == w[c])
      && (forall d :: d in desired && Known(current, d.name) ==> HealedIff(w, e, specs, d))
    decreases |desired|
  {
    if desired != [] {
      var d, others, rest := desired[0], desired[1..], PlanAll(desired[1..], current);
      assert MatchesOne(w, specs, d, current);
      var w' := OneHealed(w, specs, d, current, rest);
      OthersMatch(w, w', specs, desired, current);
      PassHealsEach(w', specs, others, current);
      var e := WorldDoAll(w', specs, rest);
      forall o | o in desired && Known(current, o.name) ensures HealedIff(w, e, specs, o) {
        if o != d {
          HealedElsewhere(w, w', e, specs, o, current);
        }
      }
    }
  }

  lemma OthersMatch(w: Statuses, w': Statuses, specs: Specs, desired: seq<Desired>, current: seq<Recorded>)
    requires Matches(w, specs, desired, current) && desired != []
    requires forall c :: c in w && c != desired[0].name ==> c in w' && w'[c] == w[c]
    ensures Matches(w', specs, desired[1..], current)
    ensures forall o :: o in desired[1..] ==> o.name != desired[0].name && MatchesOne(w', specs, o, current)
  {
    forall o | o in desired[1..] ensures o.name != desired[0].name && MatchesOne(w', specs, o, current) {
      assert MatchesOne(w, specs, o, current);
    }
  }

  lemma HealedElsewhere(w: Statuses, w': Statuses, e: Statuses, specs: Specs, o: Desired, current: seq<Recorded>)
    requires MatchesOne(w, specs, o, current) && MatchesOne(w', specs, o, current) && Known(current, o.name)
    requires HealedIff(w', e, specs, o)
    ensures HealedIff(w, e, specs, o)
  {}

  // ---------------------------------------------------------------- passes that end at a failing action

  /** A pass over `before`, `at` and `after` in which the `j`-th action on `at` fails: nothing further
      is executed. */
  datatype FailedPass = FailedPass(before: seq<Desired>, at: Desired, after: seq<Desired>, current: seq<Recorded>, j: nat) {
    predicate Valid() {
      j < |PlanFor(at, current)|
    }

    function All(): seq<Desired> {
      before + [at] + after
    }

    function Executed(): seq<Action>
      requires Valid()
    {
      PlanAll(before, current) + PlanFor(at, current)[..j]
    }

    /** A connection planned after the failing action, or not at all. */
    ghost predicate NotReached(name: string) {
      name != at.name && forall d :: d in before ==> d.name != name
    }
  }

  lemma {:induction false} DoablePrefix(st: ConnStatus, spec: set<string>, acts: seq<Action>, j: nat)
    requires Doable(st, spec, acts) && j <= |acts|
    ensures Doable(st, spec, acts[..j])
    decreases j
  {
    if j > 0 {
      DoablePrefix(Do(st, spec, acts[0]), spec, acts[1..], j - 1);
      assert acts[..j][1..] == acts[1..][..j - 1];
    }
  }

  lemma {:induction false} WorldConcat(w: Statuses, specs: Specs, a: seq<Action>, b: seq<Action>)
    requires WorldDoable(w, specs, a) && WorldDoable(WorldDoAll(w, specs, a), specs, b)
    ensures WorldDoable(w, specs, a + b) && WorldDoAll(w, specs, a + b) == WorldDoAll(WorldDoAll(w, specs, a), specs, b)
    decreases |a|
  {
    if a == [] {
      assert a + b == b;
    } else {
      assert (a + b)[1..] == a[1..] + b;
      WorldConcat(DoIn(w, specs, a[0]), specs, a[1..], b);
    }
  }

  /** Part of the plan of one connection. */
  lemma PartDone(w: Statuses, specs: Specs, d: Desired, current: seq<Recorded>, j: nat)
    requires MatchesOne(w, specs, d, current) && j <= |PlanFor(d, current)|
    ensures WorldDoable(w, specs, PlanFor(d, current)[..j])
    ensures var e := WorldDoAll(w, specs, PlanFor(d, current)[..j]);
      forall c :: c in w && c != d.name ==> c in e && e[c] == w[c]
  {
    if Known(current, d.name) {
      var plan := Plan(d.name, w[d.name], d.order);
      OnePassHealsIff(d.name, w[d.name], specs[d.name], d.order);
      PlanNames(d.name, w[d.name], d.order);
      DoablePrefix(w[d.name], specs[d.name], plan, j);
      OneConnFirst(w, specs, d.name, plan[..j], []);
      assert plan[..j] + [] == plan[..j];
    }
  }

  lemma MatchesParts(w: Statuses, specs: Specs, p: FailedPass)
    requires Matches(w, specs, p.All(), p.current)
    ensures Matches(w, specs, p.before, p.current) && MatchesOne(w, specs, p.at, p.current)
    ensures forall d :: d in p.before ==> d.name != p.at.name && MatchesOne(w, specs, d, p.current)
  {
    var all := p.All();
    assert all[|p.before|] == p.at && p.at in all;
    forall d | d in p.before ensures d.name != p.at.name && MatchesOne(w, specs, d, p.current) {
      var i :| 0 <= i < |p.before| && p.before[i] == d;
      assert all[i] == d && d in all;
    }
    forall i, j | 0 <= i < j < |p.before| ensures p.before[i].name != p.before[j].name {
      assert all[i] == p.before[i] && all[j] == p.before[j];
    }
  }

  lemma ExecutedPrefix(p: FailedPass)
    requires p.Valid()
    ensures p.Executed() <= PlanAll(p.All(), p.current)
  {
    PlanAllConcat(p.before + [p.at], p.after, p.current);
    PlanAllAppend(p.before, p.at, p.current);
  }

  /** A pass that ends at a failing action heals exactly the curable ones of the connections planned
      before it and leaves every connection planned after it as it was. */
  lemma FailedPassHeals(w: Statuses, specs: Specs, p: FailedPass)
    requires p.Valid() && Matches(w, specs, p.All(), p.current)
    ensures p.Executed() <= PlanAll(p.All(), p.current) && WorldDoable(w, specs, p.Executed())
    ensures var e := WorldDoAll(w, specs, p.Executed());
      && (forall c :: c in w && p.NotReached(c) ==> c in e && e[c] == w[c])
      && (forall d :: d in p.before && Known(p.current, d.name) ==>
            d.name in w && d.name in specs && HealedIff(w, e, specs, d))
  {
    MatchesParts(w, specs, p);
    ExecutedPrefix(p);
    PassHealsEach(w, specs, p.before, p.current);
    var mid := WorldDoAll(w, specs, PlanAll(p.before, p.current));
    assert MatchesOne(mid, specs, p.at, p.current);
    PartDone(mid, specs, p.at, p.current, p.j);
    WorldConcat(w, specs, PlanAll(p.before, p.current), PlanFor(p.at, p.current)[..p.j]);
  }

  /** Passes that each end at a failing action, from plans for the statuses they start with. */
  ghost predicate AllFail(w: Statuses, specs: Specs, passes: seq<FailedPass>)
    decreases |passes|
  {
    passes == [] || (
      && passes[0].Valid() && Matches(w, specs, passes[0].All(), passes[0].current)
      && WorldDoable(w, specs, passes[0].Executed())
      && AllFail(WorldDoAll(w, specs, passes[0].Executed()), specs, passes[1..]))
  }

  ghost function AfterFailures(w: Statuses, specs: Specs, passes: seq<FailedPass>): Statuses
    requires AllFail(w, specs, passes)
    decreases |passes|
  {
    if passes == [] then w else AfterFailures(WorldDoAll(w, specs, passes[0].Executed()), specs, passes[1..])
  }

  /** As long as every pass ends at a failing action before a connection is reached, nothing is done
      for that connection, however many passes there are. */
  lemma {:induction false} Starved(w: Statuses, specs: Specs, passes: seq<FailedPass>, c: string)
    requires AllFail(w, specs, passes) && c in w
    requires forall k :: 0 <= k < |passes| ==> passes[k].NotReached(c)
    ensures c in AfterFailures(w, specs, passes) && AfterFailures(w, specs, passes)[c] == w[c]
    decreases |passes|
  {
    if passes != [] {
      FailedPassHeals(w, specs, passes[0]);
      Starved(WorldDoAll(w, specs, passes[0].Executed()), specs, passes[1..], c);
    }
  }
}

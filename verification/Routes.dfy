/** Route lists and bridge FDB maps of an xfrm pod: the diff that plans changes to them, and what
    executing the planned changes leaves recorded. */
module Routes {
  import opened Api
  import opened Lists
  import opened Ordering

  datatype ListOp = Add(route: string) | Remove(route: string)
  datatype Change = Change(key: nat, from: Option<string>, to: Option<string>)

  // ---------------------------------------------------------------- the diff of two lists

  function Bag(o: Option<string>): multiset<string> {
    match o case Some(v) => multiset{v} case None => multiset{}
  }

  /** The old values, and the new values, of a list of changes. */
  function Froms(cs: seq<Change>): multiset<string> {
    if cs == [] then multiset{} else Froms(cs[..|cs| - 1]) + Bag(cs[|cs| - 1].from)
  }

  function Tos(cs: seq<Change>): multiset<string> {
    if cs == [] then multiset{} else Tos(cs[..|cs| - 1]) + Bag(cs[|cs| - 1].to)
  }

  lemma FromsSnoc(cs: seq<Change>, c: Change)
    ensures Froms(cs + [c]) == Froms(cs) + Bag(c.from)
    ensures Tos(cs + [c]) == Tos(cs) + Bag(c.to)
  {}

  lemma FromsNext(cs: seq<Change>, i: nat)
    requires i < |cs|
    ensures Froms(cs[..i + 1]) == Froms(cs[..i]) + Bag(cs[i].from)
    ensures Tos(cs[..i + 1]) == Tos(cs[..i]) + Bag(cs[i].to)
  {
    assert cs[..i + 1] == cs[..i] + [cs[i]];
    FromsSnoc(cs[..i], cs[i]);
  }

  /** Giving a change without a new value one. */
  lemma {:induction false} SetTo(cs: seq<Change>, p: nat, v: string)
    requires p < |cs| && cs[p].to == None
    ensures Froms(cs[p := cs[p].(to := Some(v))]) == Froms(cs)
    ensures Tos(cs[p := cs[p].(to := Some(v))]) == Tos(cs) + multiset{v}
    decreases |cs|
  {
    var n := |cs| - 1;
    var d := cs[p].(to := Some(v));
    var ds := cs[p := d];
    if p < n {
      SetTo(cs[..n], p, v);
      assert ds[..n] == cs[..n][p := d];
      Swap(Tos(cs[..n]), multiset{v}, Bag(cs[n].to));
    } else {
      assert ds[..n] == cs[..n];
    }
  }

  lemma Swap(x: multiset<string>, y: multiset<string>, z: multiset<string>)
    ensures (x + y) + z == (x + z) + y
  {}

  lemma Snoc(a: seq<string>, i: nat)
    requires i < |a|
    ensures multiset(a[..i + 1]) == multiset(a[..i]) + multiset{a[i]}
  {
    assert a[..i + 1] == a[..i] + [a[i]];
  }

  /** One more element `v` on the `x` side: it takes a partner or is left over. */
  lemma PartnerStep(x: multiset<string>, y: multiset<string>, v: string)
    ensures (y - x)[v] > 0 ==> (y - x) - multiset{v} == y - (x + multiset{v}) && (x + multiset{v}) - y == x - y
    ensures (y - x)[v] == 0 ==> y - x == y - (x + multiset{v}) && (x + multiset{v}) - y == (x - y) + multiset{v}
  {}

  lemma {:induction false} TosNone(cs: seq<Change>)
    requires forall c :: c in cs ==> c.to == None
    ensures Tos(cs) == multiset{}
  {
    if cs != [] {
      TosNone(cs[..|cs| - 1]);
    }
  }

  /** The elements of `a` that find no partner of their own in `b`, under their index. */
  method LeftOver(a: seq<string>, b: seq<string>) returns (changes: seq<Change>)
    ensures Froms(changes) == multiset(a) - multiset(b)
    ensures forall c :: c in changes ==> c.to == None
  {
    changes := [];
    var partners := multiset(b);
    ghost var seen: multiset<string> := multiset{};
    for i := 0 to |a|
      invariant seen == multiset(a[..i])
      invariant partners == multiset(b) - seen && Froms(changes) == seen - multiset(b)
      invariant forall c :: c in changes ==> c.to == None
    {
      Snoc(a, i);
      PartnerStep(seen, multiset(b), a[i]);
      seen := seen + multiset{a[i]};
      if partners[a[i]] > 0 {
        partners := partners - multiset{a[i]};
      } else {
        FromsSnoc(changes, Change(i, Some(a[i]), None));
        changes := changes + [Change(i, Some(a[i]), None)];
      }
    }
    assert a[..|a|] == a;
  }

  /** `diff.Diff` on two slices of strings: each element takes an equal partner on the other side
      while there is one, and the elements left over are paired by their index. */
  method DiffLists(a: seq<string>, b: seq<string>) returns (changes: seq<Change>)
    ensures Froms(changes) == multiset(a) - multiset(b)
    ensures Tos(changes) == multiset(b) - multiset(a)
  {
    changes := LeftOver(a, b);
    TosNone(changes);
    var partners := multiset(a);
    ghost var seen: multiset<string> := multiset{};
    for j := 0 to |b|
      invariant seen == multiset(b[..j])
      invariant partners == multiset(a) - seen && Tos(changes) == seen - multiset(a)
      invariant Froms(changes) == multiset(a) - multiset(b)
      invariant forall c :: c in changes && c.key >= j ==> c.to == None
    {
      Snoc(b, j);
      PartnerStep(seen, multiset(a), b[j]);
      seen := seen + multiset{b[j]};
      if partners[b[j]] > 0 {
        partners := partners - multiset{b[j]};
      } else {
        changes := AddNew(changes, j, b[j]);
      }
    }
    assert b[..|b|] == b;
  }

  /** Notes the left-over element `v` of the second slice under its index. */
  method AddNew(cs: seq<Change>, key: nat, v: string) returns (r: seq<Change>)
    requires forall c :: c in cs ==> c.key >= key ==> c.to == None
    ensures Froms(r) == Froms(cs) && Tos(r) == Tos(cs) + multiset{v}
    ensures forall c :: c in r ==> c.key > key ==> c.to == None
  {
    for p := 0 to |cs|
      invariant forall q :: 0 <= q < p ==> cs[q].key != key
    {
      if cs[p].key == key {
        SetTo(cs, p, v);
        return cs[p := cs[p].(to := Some(v))];
      }
    }
    FromsSnoc(cs, Change(key, None, Some(v)));
    r := cs + [Change(key, None, Some(v))];
  }

  // ---------------------------------------------------------------- the plan for a list

  /** The operations drop each surplus copy once, add each missing copy once, and do nothing else. */
  ghost predicate Transforms(ops: seq<ListOp>, a: seq<string>, b: seq<string>) {
    && (forall v :: multiset(ops)[Remove(v)] == (multiset(a) - multiset(b))[v])
    && (forall v :: multiset(ops)[Add(v)] == (multiset(b) - multiset(a))[v])
    && |ops| == |multiset(a) - multiset(b)| + |multiset(b) - multiset(a)|
  }

  ghost predicate Tally(ops: seq<ListOp>, froms: multiset<string>, tos: multiset<string>) {
    && (forall v :: multiset(ops)[Remove(v)] == froms[v])
    && (forall v :: multiset(ops)[Add(v)] == tos[v])
    && |ops| == |froms| + |tos|
  }

  /** A deletion, a creation, or for an update both. */
  function ChangeOps(c: Change): seq<ListOp> {
    (if c.from.Some? then [Remove(c.from.value)] else []) + (if c.to.Some? then [Add(c.to.value)] else [])
  }

  lemma TallyMore(ops: seq<ListOp>, froms: multiset<string>, tos: multiset<string>, c: Change)
    requires Tally(ops, froms, tos)
    ensures Tally(ops + ChangeOps(c), froms + Bag(c.from), tos + Bag(c.to))
  {
    forall v ensures multiset(ops + ChangeOps(c))[Remove(v)] == (froms + Bag(c.from))[v]
      ensures multiset(ops + ChangeOps(c))[Add(v)] == (tos + Bag(c.to))[v]
    {
      OpsCount(ops, c, v);
    }
  }

  lemma OpsCount(ops: seq<ListOp>, c: Change, v: string)
    ensures multiset(ops + ChangeOps(c))[Remove(v)] == multiset(ops)[Remove(v)] + Bag(c.from)[v]
    ensures multiset(ops + ChangeOps(c))[Add(v)] == multiset(ops)[Add(v)] + Bag(c.to)[v]
  {}

  /** The actions for the changes. */
  method ListOps(changes: seq<Change>) returns (ops: seq<ListOp>)
    ensures Tally(ops, Froms(changes), Tos(changes))
  {
    ops := [];
    ghost var froms: multiset<string>, tos: multiset<string> := multiset{}, multiset{};
    for i := 0 to |changes|
      invariant froms == Froms(changes[..i]) && tos == Tos(changes[..i])
      invariant Tally(ops, froms, tos)
    {
      FromsNext(changes, i);
      TallyMore(ops, froms, tos, changes[i]);
      ops := ops + ChangeOps(changes[i]);
      froms, tos := froms + Bag(changes[i].from), tos + Bag(changes[i].to);
    }
    assert changes[..|changes|] == changes;
  }

  /** The local or the remote part of `diffRoutes`. */
  method DiffRouteList(current: seq<string>, desired: seq<string>) returns (ops: seq<ListOp>)
    ensures Transforms(ops, current, desired)
  {
    var c, d := Sort(current), Sort(desired);
    ops := [];
    if c != d {
      var changes := DiffLists(c, d);
      ops := ListOps(changes);
    } else {
      assert multiset(current) == multiset(c) == multiset(desired);
    }
  }

  // ---------------------------------------------------------------- executing it

  /** What one executed route action records: removal drops every equal entry. */
  function Apply(list: seq<string>, op: ListOp): seq<string> {
    match op
    case Add(r) => Sort(list + [r])
    case Remove(r) => Sort(Without(list, {r}))
  }

  function RunList(list: seq<string>, ops: seq<ListOp>): seq<string>
    decreases |ops|
  {
    if ops == [] then list else RunList(Apply(list, ops[0]), ops[1..])
  }

  lemma {:induction false} WithoutCount(s: seq<string>, r: string, v: string)
    ensures multiset(Without(s, {r}))[v] == if v == r then 0 else multiset(s)[v]
  {
    if s != [] {
      assert s == [s[0]] + s[1..];
      WithoutCount(s[1..], r, v);
    }
  }

  lemma ApplyCount(list: seq<string>, op: ListOp, v: string)
    ensures multiset(Apply(list, op))[v] ==
      if op == Remove(v) then 0 else multiset(list)[v] + multiset{op}[Add(v)]
  {
    match op
    case Add(r) =>
    case Remove(r) => WithoutCount(list, r, v);
  }

  lemma {:induction false} RunCount(list: seq<string>, ops: seq<ListOp>, v: string)
    requires Remove(v) !in ops || Add(v) !in ops
    ensures multiset(RunList(list, ops))[v] ==
      if Remove(v) in ops then 0 else multiset(list)[v] + multiset(ops)[Add(v)]
    decreases |ops|
  {
    if ops != [] {
      assert ops == [ops[0]] + ops[1..];
      ApplyCount(list, ops[0], v);
      RunCount(Apply(list, ops[0]), ops[1..], v);
    }
  }

  lemma {:induction false} RunSnoc(list: seq<string>, ops: seq<ListOp>, op: ListOp)
    ensures RunList(list, ops + [op]) == Apply(RunList(list, ops), op)
    decreases |ops|
  {
    if ops == [] {
      assert ops + [op] == [op];
    } else {
      assert (ops + [op])[1..] == ops[1..] + [op];
      RunSnoc(Apply(list, ops[0]), ops[1..], op);
    }
  }

  /** No value that is to stay has surplus copies. */
  predicate Clean(a: seq<string>, b: seq<string>) {
    forall v :: v in b ==> multiset(a)[v] <= multiset(b)[v]
  }

  lemma NeverBoth(ops: seq<ListOp>, a: seq<string>, b: seq<string>, v: string)
    requires Transforms(ops, a, b)
    ensures Remove(v) in ops ==> Add(v) !in ops
    ensures Remove(v) in ops <==> multiset(a)[v] > multiset(b)[v]
    ensures Add(v) in ops <==> multiset(a)[v] < multiset(b)[v]
  {}

  /** Executing the plan reaches the desired entries exactly when no value that is to stay has
      surplus copies, in whatever order the plan was listed. */
  lemma ReachedIff(a: seq<string>, b: seq<string>, ops: seq<ListOp>)
    requires Transforms(ops, a, b)
    ensures multiset(RunList(a, ops)) == multiset(b) <==> Clean(a, b)
  {
    forall v ensures multiset(RunList(a, ops))[v] == if multiset(a)[v] > multiset(b)[v] then 0 else multiset(b)[v] {
      NeverBoth(ops, a, b, v);
      RunCount(a, ops, v);
    }
    if Clean(a, b) {
      forall v ensures multiset(RunList(a, ops))[v] == multiset(b)[v] {
        assert v in b <==> multiset(b)[v] > 0;
      }
    } else {
      var v :| v in b && multiset(a)[v] > multiset(b)[v];
      assert multiset(b)[v] > 0;
    }
  }

  /** The code does lose an entry otherwise. */
  lemma SurplusLosesEntry(ops: seq<ListOp>)
    requires Transforms(ops, ["r", "r"], ["r"])
    ensures RunList(["r", "r"], ops) == []
  {}

  lemma EmptyIff(a: seq<string>, b: seq<string>, ops: seq<ListOp>)
    requires Transforms(ops, a, b)
    ensures ops == [] <==> multiset(a) == multiset(b)
  {}

  lemma RunAscending(list: seq<string>, ops: seq<ListOp>)
    requires ops != []
    ensures Ascending(RunList(list, ops))
  {
    var n := |ops| - 1;
    assert ops == ops[..n] + [ops[n]];
    RunSnoc(list, ops[..n], ops[n]);
    var before := RunList(list, ops[..n]);
    match ops[n]
    case Add(r) => SortAscending(before + [r]);
    case Remove(r) => SortAscending(Without(before, {r}));
  }

  /** A plan that does anything leaves the desired list in order. */
  lemma ReachesSorted(a: seq<string>, b: seq<string>, ops: seq<ListOp>)
    requires Transforms(ops, a, b) && Clean(a, b) && ops != []
    ensures RunList(a, ops) == Sort(b)
  {
    ReachedIff(a, b, ops);
    RunAscending(a, ops);
    SortAscending(b);
    AscendingUnique(RunList(a, ops), Sort(b));
  }

  // ---------------------------------------------------------------- counting operations

  /** The number of entries in which two lists differ. */
  function Gap(a: seq<string>, b: seq<string>): nat {
    |Elements(a) - Elements(b)| + |Elements(b) - Elements(a)|
  }

  lemma ElementsApply(list: seq<string>, op: ListOp)
    ensures Elements(Apply(list, op)) ==
      match op case Add(r) => Elements(list) + {r} case Remove(r) => Elements(list) - {r}
  {
    forall v ensures v in Apply(list, op) <==>
        v in match op case Add(r) => Elements(list) + {r} case Remove(r) => Elements(list) - {r}
    {
      ApplyCount(list, op, v);
      assert v in Apply(list, op) <==> multiset(Apply(list, op))[v] > 0;
      assert v in list <==> multiset(list)[v] > 0;
    }
  }

  /** One element more on the left changes the difference by one. */
  lemma Grown<T(!new)>(x: set<T>, b: set<T>, r: T)
    requires r !in x
    ensures |(x + {r}) - b| + |b - (x + {r})| == |x - b| + |b - x| + (if r in b then -1 else 1)
  {
    if r in b {
      assert (x + {r}) - b == x - b;
      assert b - x == (b - (x + {r})) + {r};
    } else {
      assert (x + {r}) - b == (x - b) + {r};
      assert b - (x + {r}) == b - x;
    }
  }

  lemma OneStep(list: seq<string>, op: ListOp, b: seq<string>)
    ensures Gap(list, b) <= Gap(Apply(list, op), b) + 1
  {
    ElementsApply(list, op);
    var e, after := Elements(list), Elements(Apply(list, op));
    match op
    case Add(r) =>
      if r in list {
        assert after == e;
      } else {
        Grown(e, Elements(b), r);
      }
    case Remove(r) =>
      if r in list {
        assert e == after + {r};
        Grown(after, Elements(b), r);
      } else {
        assert after == e;
      }
  }

  /** No way of getting from one list to the other is shorter than the number of differing entries. */
  lemma {:induction false} AtLeastGap(a: seq<string>, b: seq<string>, ops: seq<ListOp>)
    ensures Gap(a, b) <= Gap(RunList(a, ops), b) + |ops|
    decreases |ops|
  {
    if ops != [] {
      OneStep(a, ops[0], b);
      AtLeastGap(Apply(a, ops[0]), b, ops[1..]);
    }
  }

  lemma {:induction false} DistinctCounts(s: seq<string>)
    ensures Distinct(s) <==> forall v :: multiset(s)[v] <= 1
  {
    if Distinct(s) {
      DistinctOnce(s);
    } else {
      var i, j :| 0 <= i < j < |s| && s[i] == s[j];
      assert s == s[..j] + s[j..] && s[j] in s[..j] && s[j] in s[j..];
      assert multiset(s)[s[j]] == multiset(s[..j])[s[j]] + multiset(s[j..])[s[j]];
    }
  }

  lemma {:induction false} DistinctOnce(s: seq<string>)
    requires Distinct(s)
    ensures forall v :: multiset(s)[v] <= 1
  {
    if s != [] {
      DistinctOnce(s[1..]);
      assert s == [s[0]] + s[1..] && s[0] !in s[1..];
      assert multiset(s) == multiset{s[0]} + multiset(s[1..]);
    }
  }

  lemma DistinctDifference(a: seq<string>, b: seq<string>)
    requires Distinct(a) && Distinct(b)
    ensures |multiset(a) - multiset(b)| == |Elements(a) - Elements(b)|
  {
    DistinctCounts(a);
    DistinctCounts(b);
    forall v ensures (multiset(a) - multiset(b))[v] == multiset(Elements(a) - Elements(b))[v] {
      assert v in a <==> multiset(a)[v] == 1;
      assert v in b <==> multiset(b)[v] == 1;
    }
    assert multiset(a) - multiset(b) == multiset(Elements(a) - Elements(b));
  }

  lemma GapZero(a: seq<string>, b: seq<string>)
    requires multiset(a) == multiset(b)
    ensures Gap(a, b) == 0
  {
    forall v ensures v in a <==> v in b {
      assert v in a <==> v in multiset(a);
      assert v in b <==> v in multiset(b);
    }
    assert Elements(a) == Elements(b);
  }

  lemma DistinctClean(a: seq<string>, b: seq<string>)
    requires Distinct(a)
    ensures Clean(a, b)
  {
    DistinctCounts(a);
    forall v | v in b ensures multiset(a)[v] <= multiset(b)[v] {
      assert v in multiset(b);
    }
  }

  /** On lists without duplicates the plan has one operation per differing entry, no other
      sequence of operations that reaches the desired entries is shorter, and after any part of
      it exactly the rest of the difference is left. */
  lemma PlanIsMinimal(a: seq<string>, b: seq<string>, ops: seq<ListOp>, other: seq<ListOp>)
    requires Transforms(ops, a, b) && Distinct(a) && Distinct(b)
    requires multiset(RunList(a, other)) == multiset(b)
    ensures |ops| == Gap(a, b) <= |other|
  {
    DistinctDifference(a, b);
    DistinctDifference(b, a);
    AtLeastGap(a, b, other);
    GapZero(RunList(a, other), b);
  }

  lemma {:induction false} RunConcat(list: seq<string>, first: seq<ListOp>, second: seq<ListOp>)
    ensures RunList(list, first + second) == RunList(RunList(list, first), second)
    decreases |first|
  {
    if first == [] {
      assert first + second == second;
    } else {
      assert (first + second)[1..] == first[1..] + second;
      RunConcat(Apply(list, first[0]), first[1..], second);
    }
  }

  lemma EachStepCounts(a: seq<string>, b: seq<string>, ops: seq<ListOp>, k: nat)
    requires Transforms(ops, a, b) && Distinct(a) && Distinct(b) && k <= |ops|
    ensures Gap(RunList(a, ops[..k]), b) == |ops| - k
    ensures Distinct(RunList(a, ops[..k]))
  {
    WholeCounts(a, b, ops);
    PartGap(a, b, ops, k);
    PartDistinct(a, b, ops, k);
  }

  lemma PartGap(a: seq<string>, b: seq<string>, ops: seq<ListOp>, k: nat)
    requires Gap(a, b) == |ops| && Gap(RunList(a, ops), b) == 0 && k <= |ops|
    ensures Gap(RunList(a, ops[..k]), b) == |ops| - k
  {
    var first, rest := ops[..k], ops[k..];
    assert ops == first + rest;
    RunConcat(a, first, rest);
    AtLeastGap(a, b, first);
    AtLeastGap(RunList(a, first), b, rest);
  }

  lemma WholeCounts(a: seq<string>, b: seq<string>, ops: seq<ListOp>)
    requires Transforms(ops, a, b) && Distinct(a) && Distinct(b)
    ensures Gap(a, b) == |ops| && Gap(RunList(a, ops), b) == 0
  {
    DistinctClean(a, b);
    ReachedIff(a, b, ops);
    PlanIsMinimal(a, b, ops, ops);
    GapZero(RunList(a, ops), b);
  }

  lemma PartDistinct(a: seq<string>, b: seq<string>, ops: seq<ListOp>, k: nat)
    requires Transforms(ops, a, b) && Distinct(a) && Distinct(b) && k <= |ops|
    ensures Distinct(RunList(a, ops[..k]))
  {
    DistinctCounts(a);
    DistinctCounts(b);
    forall v ensures multiset(RunList(a, ops[..k]))[v] <= 1 {
      PartOnce(a, b, ops, k, v);
    }
    DistinctCounts(RunList(a, ops[..k]));
  }

  lemma PartOnce(a: seq<string>, b: seq<string>, ops: seq<ListOp>, k: nat, v: string)
    requires Transforms(ops, a, b) && k <= |ops| && multiset(a)[v] <= 1 && multiset(b)[v] <= 1
    ensures multiset(RunList(a, ops[..k]))[v] <= 1
  {
    NeverBoth(ops, a, b, v);
    PartCount(ops, k, Add(v));
    PartCount(ops, k, Remove(v));
    RunCount(a, ops[..k], v);
  }

  lemma PartCount(ops: seq<ListOp>, k: nat, op: ListOp)
    requires k <= |ops|
    ensures multiset(ops[..k])[op] <= multiset(ops)[op]
  {
    assert ops == ops[..k] + ops[k..];
  }

  // ---------------------------------------------------------------- bridge FDB maps

  type FDB = map<string, string>
  datatype KeyOp = Set(vxlanIP: string, ip: string) | Unset(vxlanIP: string, ip: string)

  function ApplyKey(m: FDB, op: KeyOp): FDB {
    match op
    case Set(k, ip) => m[k := ip]
    case Unset(k, _) => m - {k}
  }

  function RunKeys(m: FDB, ops: seq<KeyOp>): FDB
    decreases |ops|
  {
    if ops == [] then m else RunKeys(ApplyKey(m, ops[0]), ops[1..])
  }

  lemma {:induction false} RunKeysConcat(m: FDB, first: seq<KeyOp>, second: seq<KeyOp>)
    ensures RunKeys(m, first + second) == RunKeys(RunKeys(m, first), second)
    decreases |first|
  {
    if first == [] {
      assert first + second == second;
    } else {
      assert (first + second)[1..] == first[1..] + second;
      RunKeysConcat(ApplyKey(m, first[0]), first[1..], second);
    }
  }

  /** An entry that is wrong goes, or an entry that is missing comes. */
  predicate Useful(op: KeyOp, m: FDB, b: FDB) {
    match op
    case Unset(k, ip) => k in m && m[k] == ip && !(k in b && b[k] == ip)
    case Set(k, ip) => k !in m && k in b && b[k] == ip
  }

  /** Every operation is useful where it is executed, and together they lead to `b`. */
  ghost predicate Leads(ops: seq<KeyOp>, a: FDB, b: FDB) {
    && RunKeys(a, ops) == b
    && forall j :: 0 <= j < |ops| ==> Useful(ops[j], RunKeys(a, ops[..j]), b)
  }

  ghost predicate Approaches(ops: seq<KeyOp>, a: FDB, b: FDB) {
    forall j :: 0 <= j < |ops| ==> Useful(ops[j], RunKeys(a, ops[..j]), b)
  }

  lemma ApproachesMore(ops: seq<KeyOp>, a: FDB, b: FDB, op: KeyOp)
    requires Approaches(ops, a, b) && Useful(op, RunKeys(a, ops), b)
    ensures Approaches(ops + [op], a, b)
    ensures RunKeys(a, ops + [op]) == ApplyKey(RunKeys(a, ops), op)
  {
    var all := ops + [op];
    RunKeysConcat(a, ops, [op]);
    forall j | 0 <= j < |all| ensures Useful(all[j], RunKeys(a, all[..j]), b) {
      assert all[..j] == ops[..j];
      assert ops[..|ops|] == ops;
    }
  }

  /** Entry `k` of a map, as an option. */
  function At(m: FDB, k: string): Option<string> {
    if k in m then Some(m[k]) else None
  }

  /** The FDB part of `diffRoutes`; a Go map is ranged over in an arbitrary order. */
  method DiffMaps(a: FDB, b: FDB) returns (ops: seq<KeyOp>)
    ensures Leads(ops, a, b)
  {
    ops := [];
    var todo := a.Keys + b.Keys;
    while todo != {}
      invariant Approaches(ops, a, b)
      invariant forall k :: At(RunKeys(a, ops), k) == if k in todo then At(a, k) else At(b, k)
    {
      var k :| k in todo && (k in a || todo !! a.Keys);
      ops := DiffKey(ops, a, b, k, todo);
      todo := todo - {k};
    }
    MapsEqual(RunKeys(a, ops), b);
  }

  lemma MapsEqual(m: FDB, b: FDB)
    requires forall k :: At(m, k) == At(b, k)
    ensures m == b
  {
    forall k ensures (k in m <==> k in b) && (k in m ==> m[k] == b[k]) {
      assert At(m, k) == At(b, k);
    }
  }

  method DiffKey(planned: seq<KeyOp>, a: FDB, b: FDB, key: string, todo: set<string>) returns (ops: seq<KeyOp>)
    requires Approaches(planned, a, b) && key in todo
    requires forall k :: At(RunKeys(a, planned), k) == if k in todo then At(a, k) else At(b, k)
    ensures Approaches(ops, a, b)
    ensures forall k :: At(RunKeys(a, ops), k) == if k in todo && k != key then At(a, k) else At(b, k)
  {
    ops := planned;
    assert At(RunKeys(a, ops), key) == At(a, key);
    if At(a, key) != At(b, key) {
      if key in a {
        ApproachesMore(ops, a, b, Unset(key, a[key]));
        ops := ops + [Unset(key, a[key])];
      }
      if key in b {
        ApproachesMore(ops, a, b, Set(key, b[key]));
        ops := ops + [Set(key, b[key])];
      }
    }
  }

  /** `createXfrmPod`'s loop over a new pod's FDB entries. */
  method SetAll(b: FDB) returns (ops: seq<KeyOp>)
    ensures Leads(ops, map[], b)
  {
    ops := [];
    var todo := b.Keys;
    while todo != {}
      invariant todo <= b.Keys
      invariant Approaches(ops, map[], b)
      invariant forall k :: At(RunKeys(map[], ops), k) == if k in todo then None else At(b, k)
    {
      var k :| k in todo;
      assert At(RunKeys(map[], ops), k) == None;
      ApproachesMore(ops, map[], b, Set(k, b[k]));
      ops := ops + [Set(k, b[k])];
      todo := todo - {k};
    }
    MapsEqual(RunKeys(map[], ops), b);
  }

  function Pairs(m: FDB): set<(string, string)> {
    set k | k in m :: (k, m[k])
  }

  /** The number of entries in which two maps differ. */
  function KeyGap(a: FDB, b: FDB): nat {
    |Pairs(a) - Pairs(b)| + |Pairs(b) - Pairs(a)|
  }

  lemma PairsWith(m: FDB, k: string, ip: string)
    requires k !in m
    ensures Pairs(m[k := ip]) == Pairs(m) + {(k, ip)} && (k, ip) !in Pairs(m)
  {
    var r := m[k := ip];
    assert (k, r[k]) in Pairs(r);
    forall p | p in Pairs(m) ensures p in Pairs(r) {
      assert p == (p.0, r[p.0]);
    }
  }

  lemma UsefulCloses(op: KeyOp, m: FDB, b: FDB)
    requires Useful(op, m, b)
    ensures KeyGap(ApplyKey(m, op), b) + 1 == KeyGap(m, b)
  {
    var r := ApplyKey(m, op);
    match op
    case Unset(k, ip) =>
      assert m == r[k := ip];
      PairsWith(r, k, ip);
      Grown(Pairs(r), Pairs(b), (k, ip));
    case Set(k, ip) =>
      assert (k, ip) in Pairs(b);
      PairsWith(m, k, ip);
      Grown(Pairs(m), Pairs(b), (k, ip));
  }

  lemma LeadsStep(a: FDB, b: FDB, ops: seq<KeyOp>, k: nat)
    requires Leads(ops, a, b) && k < |ops|
    ensures KeyGap(RunKeys(a, ops[..k + 1]), b) + 1 == KeyGap(RunKeys(a, ops[..k]), b)
  {
    assert ops[..k + 1] == ops[..k] + [ops[k]];
    RunKeysConcat(a, ops[..k], [ops[k]]);
    UsefulCloses(ops[k], RunKeys(a, ops[..k]), b);
  }

  /** After any part of the plan exactly the rest of the difference is left. */
  lemma {:induction false} LeadsCounts(a: FDB, b: FDB, ops: seq<KeyOp>, k: nat)
    requires Leads(ops, a, b) && k <= |ops|
    ensures KeyGap(RunKeys(a, ops[..k]), b) == |ops| - k
    decreases |ops| - k
  {
    if k == |ops| {
      assert ops[..k] == ops;
    } else {
      LeadsCounts(a, b, ops, k + 1);
      LeadsStep(a, b, ops, k);
    }
  }

  lemma LeadsEmptyIff(a: FDB, b: FDB, ops: seq<KeyOp>)
    requires Leads(ops, a, b)
    ensures ops == [] <==> a == b
  {}

  // ---------------------------------------------------------------- the FDB part, entry by entry

  lemma LeadsRest(ops: seq<KeyOp>, a: FDB, b: FDB)
    requires Leads(ops, a, b) && ops != []
    ensures Useful(ops[0], a, b) && Leads(ops[1..], ApplyKey(a, ops[0]), b)
  {
    var rest, mid := ops[1..], ApplyKey(a, ops[0]);
    assert ops[..0] == [];
    assert Useful(ops[0], RunKeys(a, ops[..0]), b);
    forall j | 0 <= j < |rest| ensures Useful(rest[j], RunKeys(mid, rest[..j]), b) {
      assert rest[j] == ops[j + 1] && ops[..j + 1][1..] == rest[..j];
      assert Useful(ops[j + 1], RunKeys(a, ops[..j + 1]), b);
    }
  }

  /** An entry is removed exactly if it is there and not desired, and added exactly if it is desired and
      not there. */
  lemma {:induction false} LeadsIs(ops: seq<KeyOp>, a: FDB, b: FDB, k: string, ip: string)
    requires Leads(ops, a, b)
    ensures Unset(k, ip) in ops <==> k in a && a[k] == ip && !(k in b && b[k] == ip)
    ensures Set(k, ip) in ops <==> k in b && b[k] == ip && !(k in a && a[k] == ip)
    decreases |ops|
  {
    if ops != [] {
      LeadsRest(ops, a, b);
      LeadsIs(ops[1..], ApplyKey(a, ops[0]), b, k, ip);
      assert ops == [ops[0]] + ops[1..];
    }
  }
}

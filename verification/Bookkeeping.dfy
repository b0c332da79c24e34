/** The reconciler's own lists of connection names: a list deleted from while it is ranged over,
    and the record of connections a daemon was last seen without. */
module Bookkeeping {
  import opened Lists

  function Blanks(n: nat): (s: seq<string>)
    ensures |s| == n && forall i :: 0 <= i < n ==> s[i] == ""
  {
    seq(n, _ => "")
  }

  /** What `slices.DeleteFunc` leaves in a slice whose shortened result is dropped: the survivors
      move to the front, the rest of the same length is zeroed. */
  function Squeezed(s: seq<string>, name: string): seq<string> {
    var kept := Without(s, {name});
    kept + Blanks(|s| - |kept|)
  }

  lemma WithoutNext(s: seq<string>, j: nat, name: string)
    requires j < |s|
    ensures Without(s[..j + 1], {name}) == Without(s[..j], {name}) + (if s[j] == name then [] else [s[j]])
  {
    assert s[..j + 1] == s[..j] + [s[j]];
    WithoutConcat(s[..j], [s[j]], {name});
  }

  method DeleteInPlace(a: array<string>, name: string)
    modifies a
    ensures a[..] == Squeezed(old(a[..]), name)
  {
    ghost var s := a[..];
    var kept := 0;
    for j := 0 to a.Length
      invariant 0 <= kept <= j
      invariant a[..kept] == Without(s[..j], {name})
      invariant forall i :: j <= i < a.Length ==> a[i] == s[i]
    {
      WithoutNext(s, j, name);
      if a[j] != name {
        a[kept] := a[j];
        kept := kept + 1;
      }
    }
    assert s[..a.Length] == s;
    for j := kept to a.Length
      invariant a[..kept] == Without(s, {name})
      invariant forall i :: kept <= i < j ==> a[i] == ""
    {
      a[j] := "";
    }
    assert a[..] == a[..kept] + a[kept..];
  }

  // ---------------------------------------------------------------- one sweep

  /** One pass that deletes stale names while ranging over the list: the name after a deleted one
      slides under the cursor and is not looked at. */
  function Sweep(names: seq<string>, live: set<string>): (r: seq<string>)
    ensures |r| <= |names|
    decreases |names|
  {
    if names == [] then []
    else if names[0] in live then [names[0]] + Sweep(names[1..], live)
    else if |names| == 1 then []
    else [names[1]] + Sweep(names[2..], live)
  }

  function Only(names: seq<string>, live: set<string>): (r: seq<string>)
    ensures forall x :: x in r <==> x in names && x in live
  {
    if names == [] then []
    else if names[0] in live then [names[0]] + Only(names[1..], live)
    else Only(names[1..], live)
  }

  function Stale(names: seq<string>, live: set<string>): nat {
    if names == [] then 0 else (if names[0] in live then 0 else 1) + Stale(names[1..], live)
  }

  lemma WithoutMiddle(a: seq<string>, x: string, b: seq<string>)
    requires x !in a && x !in b
    ensures Without(a + ([x] + b), {x}) == a + b
  {
    WithoutConcat(a, [x] + b, {x});
    WithoutConcat([x], b, {x});
    WithoutNone(a, {x});
    WithoutNone(b, {x});
  }

  lemma SplitAt(s: seq<string>, i: nat)
    requires Distinct(s) && i < |s|
    ensures s == s[..i] + ([s[i]] + s[i + 1..]) && s[i] !in s[..i] && s[i] !in s[i + 1..]
  {}

  lemma WithoutAt(s: seq<string>, i: nat)
    requires Distinct(s) && i < |s|
    ensures Without(s, {s[i]}) == s[..i] + s[i + 1..]
  {
    var a, x, b := s[..i], s[i], s[i + 1..];
    SplitAt(s, i);
    WithoutMiddle(a, x, b);
  }

  lemma WithoutBlanks(s: seq<string>, n: nat)
    requires "" !in s
    ensures Without(s + Blanks(n), {""}) == s
  {
    WithoutConcat(s, Blanks(n), {""});
    WithoutNone(s, {""});
    WithoutAll(Blanks(n), {""});
  }

  /** Deleting one of the names in front of the zeroed tail. */
  lemma SqueezedAt(s: seq<string>, n: nat, i: nat)
    requires Distinct(s) && "" !in s && i < |s|
    ensures Squeezed(s + Blanks(n), s[i]) == s[..i] + s[i + 1..] + Blanks(n + 1)
  {
    WithoutConcat(s, Blanks(n), {s[i]});
    WithoutNone(Blanks(n), {s[i]});
    WithoutAt(s, i);
  }

  /** What the sweep makes of the list once the cursor is at `i`. */
  function Outcome(names: seq<string>, i: nat, live: set<string>): seq<string> {
    if i <= |names| then names[..i] + Sweep(names[i..], live) else names
  }

  lemma OutcomeLive(names: seq<string>, i: nat, live: set<string>)
    requires i < |names| && names[i] in live
    ensures Outcome(names, i, live) == Outcome(names, i + 1, live)
  {}

  lemma OutcomeStale(names: seq<string>, i: nat, live: set<string>)
    requires i < |names| && names[i] !in live
    ensures Outcome(names, i, live) == Outcome(names[..i] + names[i + 1..], i + 1, live)
  {
    var rest, left := names[i..], names[..i] + names[i + 1..];
    if |rest| > 1 {
      assert rest[1] == left[i] && rest[2..] == left[i + 1..];
      assert left[..i + 1] == names[..i] + [rest[1]];
    }
  }

  function Advanced(names: seq<string>, i: nat, live: set<string>): seq<string> {
    if i < |names| && names[i] !in live then names[..i] + names[i + 1..] else names
  }

  /** One iteration changes nothing about the outcome. */
  lemma AdvancedOutcome(names: seq<string>, i: nat, live: set<string>)
    requires Distinct(names) && "" !in names
    ensures var left := Advanced(names, i, live);
      Distinct(left) && "" !in left && |left| <= |names| && Outcome(left, i + 1, live) == Outcome(names, i, live)
  {
    if i < |names| {
      if names[i] in live {
        OutcomeLive(names, i, live);
      } else {
        OutcomeStale(names, i, live);
      }
    } else {
      assert names[|names|..] == [] && names[..|names|] == names;
    }
  }

  /** One iteration on the list with its zeroed tail. */
  lemma AdvancedContent(names: seq<string>, i: nat, live: set<string>, tail: nat)
    requires Distinct(names) && "" !in names && "" !in live && i < |names| + tail
    ensures var left, n := Advanced(names, i, live), (names + Blanks(tail))[i];
      (if n in live then names + Blanks(tail) else Squeezed(names + Blanks(tail), n)) == left + Blanks(|names| + tail - |left|)
  {
    if i >= |names| {
      WithoutBlanks(names, tail);
      assert (names + Blanks(tail))[i] == "";
    } else if names[i] !in live {
      SqueezedAt(names, tail, i);
    }
  }

  /** The body of the loop over `AllConns`. */
  method Visit(a: array<string>, i: nat, conns: seq<string>, ghost names: seq<string>, ghost live: set<string>)
      returns (ghost left: seq<string>)
    requires Distinct(names) && "" !in names && "" !in conns && live == Elements(conns)
    requires |names| <= a.Length && i < a.Length && a[..] == names + Blanks(a.Length - |names|)
    modifies a
    ensures |left| <= a.Length && a[..] == left + Blanks(a.Length - |left|)
    ensures Distinct(left) && "" !in left && Outcome(left, i + 1, live) == Outcome(names, i, live)
  {
    AdvancedOutcome(names, i, live);
    AdvancedContent(names, i, live, a.Length - |names|);
    var n := a[i];
    assert n == a[..][i];
    if n !in conns {
      DeleteInPlace(a, n);
    }
    left := Advanced(names, i, live);
  }

  /** The loop over `AllConns`: stale names are deleted from the array being ranged over. */
  method SweepStale(a: array<string>, conns: seq<string>)
    requires Distinct(a[..]) && "" !in a[..] && "" !in conns
    modifies a
    ensures var swept := Sweep(old(a[..]), Elements(conns));
      a[..] == swept + Blanks(a.Length - |swept|)
  {
    ghost var live := Elements(conns);
    ghost var s := a[..];
    ghost var cur := s;
    assert Outcome(cur, 0, live) == Sweep(s, live) by {
      assert cur[0..] == cur && cur[..0] == [];
    }
    assert a[..] == cur + Blanks(0);
    for i := 0 to a.Length
      invariant |cur| <= a.Length && a[..] == cur + Blanks(a.Length - |cur|)
      invariant Distinct(cur) && "" !in cur
      invariant Outcome(cur, i, live) == Sweep(s, live)
    {
      cur := Visit(a, i, conns, cur, live);
    }
    assert Outcome(cur, a.Length, live) == cur by {
      assert |cur| == a.Length ==> cur[a.Length..] == [] && cur[..a.Length] == cur;
    }
  }

  // ---------------------------------------------------------------- many sweeps

  lemma {:induction false} SweepKeeps(names: seq<string>, live: set<string>)
    ensures Only(Sweep(names, live), live) == Only(names, live)
    ensures forall x :: x in Sweep(names, live) ==> x in names
    ensures Distinct(names) ==> Distinct(Sweep(names, live))
    decreases |names|
  {
    if names == [] {
    } else if names[0] in live {
      SweepKeeps(names[1..], live);
      assert Distinct(names) ==> names[0] !in names[1..];
    } else if |names| > 1 {
      SweepKeeps(names[2..], live);
      assert names[1..][1..] == names[2..];
      assert Distinct(names) ==> names[1] !in names[2..];
    }
  }

  /** A sweep removes at least half of the stale names. */
  lemma {:induction false} SweepHalves(names: seq<string>, live: set<string>)
    ensures 2 * Stale(Sweep(names, live), live) <= Stale(names, live)
    decreases |names|
  {
    if names == [] {
    } else if names[0] in live {
      SweepHalves(names[1..], live);
    } else if |names| > 1 {
      SweepHalves(names[2..], live);
      assert names[1..][1..] == names[2..];
    }
  }

  lemma {:induction false} OnlyLive(names: seq<string>, live: set<string>)
    ensures Stale(names, live) == 0 <==> Only(names, live) == names
    ensures |Only(names, live)| + Stale(names, live) == |names|
  {
    if names != [] {
      OnlyLive(names[1..], live);
    }
  }

  function Sweeps(names: seq<string>, live: set<string>, n: nat): seq<string>
    decreases n
  {
    if n == 0 then names else Sweeps(Sweep(names, live), live, n - 1)
  }

  function Doubled(n: nat): nat {
    if n == 0 then 1 else 2 * Doubled(n - 1)
  }

  /** With fewer than `2^n` stale names, `n` passes leave the live names and nothing else, in the
      order they had. */
  lemma {:induction false} SweepsReachLive(names: seq<string>, live: set<string>, n: nat)
    requires Stale(names, live) < Doubled(n)
    ensures Sweeps(names, live, n) == Only(names, live)
    decreases n
  {
    if n == 0 {
      OnlyLive(names, live);
    } else {
      SweepHalves(names, live);
      SweepKeeps(names, live);
      SweepsReachLive(Sweep(names, live), live, n - 1);
    }
  }

  /** One pass is enough exactly when no two stale names are neighbours. */
  lemma {:induction false} OneSweepEnoughIff(names: seq<string>, live: set<string>)
    ensures Sweep(names, live) == Only(names, live) <==>
      forall i :: 0 <= i < |names| - 1 ==> names[i] in live || names[i + 1] in live
    decreases |names|
  {
    SweepKeeps(names, live);
    OnlyLive(Sweep(names, live), live);
    if names == [] || |names| == 1 {
    } else if names[0] in live {
      OneSweepEnoughIff(names[1..], live);
      assert forall i :: 1 <= i < |names| ==> names[i] == names[1..][i - 1];
    } else {
      SweepKeeps(names[2..], live);
      OnlyLive(Sweep(names[2..], live), live);
      OneSweepEnoughIff(names[2..], live);
      assert names[1..][1..] == names[2..];
      assert forall i :: 2 <= i < |names| ==> names[i] == names[2..][i - 2];
    }
  }

  /** The conns that are not listed yet, appended in order. */
  function WithNew(names: seq<string>, conns: seq<string>): seq<string>
    decreases |conns|
  {
    if conns == [] then names
    else WithNew(if conns[0] in names then names else names + [conns[0]], conns[1..])
  }

  lemma {:induction false} WithNewLists(names: seq<string>, conns: seq<string>)
    ensures forall x :: x in WithNew(names, conns) <==> x in names || x in conns
    ensures Distinct(names) ==> Distinct(WithNew(names, conns))
    ensures (forall c :: c in conns ==> c in names) ==> WithNew(names, conns) == names
    decreases |conns|
  {
    if conns != [] {
      WithNewLists(if conns[0] in names then names else names + [conns[0]], conns[1..]);
    }
  }

  lemma {:induction false} WithNewSnoc(names: seq<string>, conns: seq<string>, c: string)
    ensures var all := WithNew(names, conns);
      WithNew(names, conns + [c]) == if c in all then all else all + [c]
    decreases |conns|
  {
    var more := conns + [c];
    if conns == [] {
      assert more[1..] == [];
    } else {
      assert more[1..] == conns[1..] + [c];
      WithNewSnoc(if conns[0] in names then names else names + [conns[0]], conns[1..], c);
    }
  }

  /** What is appended: the names not listed yet, each where it occurs first. */
  lemma {:induction false} WithNewIs(names: seq<string>, conns: seq<string>) returns (at: seq<nat>)
    ensures Rising(at) && |WithNew(names, conns)| == |names| + |at| && WithNew(names, conns)[..|names|] == names
    ensures forall i :: 0 <= i < |at| ==> at[i] < |conns| && WithNew(names, conns)[|names| + i] == conns[at[i]]
    ensures forall j: nat :: j in at <==> j < |conns| && conns[j] !in names && conns[j] !in conns[..j]
    decreases |conns|
  {
    at := [];
    if conns != [] {
      var n := |conns| - 1;
      var before := WithNewIs(names, conns[..n]);
      assert conns == conns[..n] + [conns[n]];
      WithNewSnoc(names, conns[..n], conns[n]);
      WithNewLists(names, conns[..n]);
      at := before + if conns[n] in names || conns[n] in conns[..n] then [] else [n];
      forall j: nat | j < n ensures conns[..n][j] == conns[j] && conns[..n][..j] == conns[..j] {}
    }
  }

  lemma {:induction false} WithNewStale(names: seq<string>, conns: seq<string>, live: set<string>)
    requires forall c :: c in conns ==> c in live
    ensures Stale(WithNew(names, conns), live) == Stale(names, live)
    decreases |conns|
  {
    if conns != [] {
      StaleConcat(names, [conns[0]], live);
      WithNewStale(if conns[0] in names then names else names + [conns[0]], conns[1..], live);
    }
  }

  lemma {:induction false} StaleConcat(s: seq<string>, t: seq<string>, live: set<string>)
    ensures Stale(s + t, live) == Stale(s, live) + Stale(t, live)
  {
    if s == [] {
      assert s + t == t;
    } else {
      assert (s + t)[1..] == s[1..] + t;
      StaleConcat(s[1..], t, live);
    }
  }

  /** The record after `n` checks with the same connections. */
  function Tracked(names: seq<string>, conns: seq<string>, n: nat): seq<string>
    decreases n
  {
    if n == 0 then names else Tracked(Sweep(WithNew(names, conns), Elements(conns)), conns, n - 1)
  }

  lemma {:induction false} TrackedSweeps(names: seq<string>, conns: seq<string>, n: nat)
    requires forall c :: c in conns ==> c in names
    ensures Tracked(names, conns, n) == Sweeps(names, Elements(conns), n)
    decreases n
  {
    if n != 0 {
      var live := Elements(conns);
      WithNewLists(names, conns);
      SweepKeeps(names, live);
      forall c | c in conns ensures c in Sweep(names, live) {
        assert c in Only(names, live);
      }
      TrackedSweeps(Sweep(names, live), conns, n - 1);
    }
  }

  /** Checks repeated with the same connections arrive at exactly those: after as many as it takes
      to halve the stale names away, the record holds the live names, old ones first. */
  lemma TrackingReachesLive(names: seq<string>, conns: seq<string>, n: nat)
    requires n > 0 && Stale(names, Elements(conns)) < Doubled(n)
    ensures Tracked(names, conns, n) == Only(WithNew(names, conns), Elements(conns))
    ensures Elements(Tracked(names, conns, n)) == Elements(conns)
  {
    var all := WithNew(names, conns);
    WithNewLists(names, conns);
    WithNewLists(all, conns);
    WithNewStale(names, conns, Elements(conns));
    TrackedSweeps(all, conns, n);
    SweepsReachLive(all, Elements(conns), n);
    assert Tracked(names, conns, n) == Tracked(all, conns, n);
  }

  // ---------------------------------------------------------------- connections not loaded

  /** The names recorded, without the blanks that dropped deletions leave behind. */
  function Names(list: seq<string>): set<string> {
    set n | n in list && n != ""
  }

  lemma SqueezedNames(list: seq<string>, name: string)
    ensures Names(Squeezed(list, name)) == Names(list) - {name}
  {}

  /** Dropping the blanks a sweep leaves. */
  lemma SweptCompacts(names: seq<string>, live: set<string>)
    requires Distinct(names) && "" !in names
    ensures Distinct(Sweep(names, live)) && "" !in Sweep(names, live) && |Sweep(names, live)| <= |names|
    ensures var swept := Sweep(names, live); Without(swept + Blanks(|names| - |swept|), {""}) == swept
  {
    SweepKeeps(names, live);
    WithoutBlanks(Sweep(names, live), |names| - |Sweep(names, live)|);
  }

  class Reconciler {
    var allConns: seq<string>
    var notLoaded: seq<string>

    constructor ()
      ensures allConns == [] && notLoaded == []
    {
      allConns, notLoaded := [], [];
    }

    /** The record of all connections: new ones are appended, gone ones swept out once. */
    method TrackConns(conns: seq<string>)
      requires Distinct(allConns) && "" !in allConns && "" !in conns
      modifies this`allConns
      ensures allConns == Sweep(WithNew(old(allConns), conns), Elements(conns))
      ensures Distinct(allConns) && "" !in allConns
    {
      ghost var before := allConns;
      for i := 0 to |conns|
        invariant WithNew(allConns, conns[i..]) == WithNew(before, conns)
      {
        assert conns[i..][0] == conns[i] && conns[i..][1..] == conns[i + 1..];
        if conns[i] !in allConns {
          allConns := allConns + [conns[i]];
        }
      }
      WithNewLists(before, conns);
      SweptCompacts(allConns, Elements(conns));
      var backing := new string[|allConns|](i requires 0 <= i < |allConns| reads this => allConns[i]);
      assert backing[..] == allConns;
      SweepStale(backing, conns);
      allConns := Compacted(backing[..]);
    }

    /** The check of one group's connections against what its daemon has loaded; the result says
        whether the daemon's configuration is to be overridden. */
    method CheckLoaded(group: seq<string>, loaded: seq<string>) returns (outdated: bool)
      requires "" !in group
      modifies this`notLoaded
      ensures Names(notLoaded) == Observed(old(Names(notLoaded)), Elements(group), Elements(loaded))
      ensures outdated <==>
        || (exists c :: c in group && Triggers(old(Names(notLoaded)), Elements(group), Elements(loaded), c))
        || (exists l :: l in loaded && l !in group)
    {
      ghost var before := Names(notLoaded);
      ghost var names := Elements(loaded);
      var allLoaded := true;
      for i := 0 to |group|
        invariant Names(notLoaded) == Observed(before, Elements(group[..i]), names)
        invariant allLoaded <==> forall c :: c in group[..i] ==> c in loaded || c in before
      {
        assert group[..i + 1] == group[..i] + [group[i]];
        var c := group[i];
        assert c != "" && (c in notLoaded <==> c in Names(notLoaded));
        assert Elements(group[..i + 1]) == Elements(group[..i]) + {c};
        if c !in loaded {
          if c !in notLoaded {
            assert Names(notLoaded + [c]) == Names(notLoaded) + {c};
            notLoaded := notLoaded + [c];
            allLoaded := false;
          }
        } else {
          SqueezedNames(notLoaded, c);
          notLoaded := Squeezed(notLoaded, c);
        }
      }
      assert group[..|group|] == group;
      if !allLoaded {
        return true;
      }
      for i := 0 to |loaded|
        invariant forall j :: 0 <= j < i ==> loaded[j] in group
      {
        if loaded[i] !in group {
          return true;
        }
      }
      notLoaded := Compacted(notLoaded);
      outdated := false;
    }
  }

  method Compacted(list: seq<string>) returns (r: seq<string>)
    ensures r == Without(list, {""})
  {
    r := [];
    for i := 0 to |list|
      invariant r == Without(list[..i], {""})
    {
      assert list[..i + 1] == list[..i] + [list[i]];
      WithoutConcat(list[..i], [list[i]], {""});
      if list[i] != "" {
        r := r + [list[i]];
      }
    }
    assert list[..|list|] == list;
  }

  // ---------------------------------------------------------------- runs of checks

  /** A full check of a group: what is loaded is struck off, what is missing is noted. */
  function Observed(missing: set<string>, group: set<string>, loaded: set<string>): set<string> {
    (missing - (group * loaded)) + (group - loaded)
  }

  predicate Triggers(missing: set<string>, group: set<string>, loaded: set<string>, c: string) {
    c in group && c !in loaded && c !in missing
  }

  datatype Check = Check(group: set<string>, loaded: set<string>)

  function MissingBefore(checks: seq<Check>, n: nat): set<string>
    requires n <= |checks|
  {
    if n == 0 then {} else Observed(MissingBefore(checks, n - 1), checks[n - 1].group, checks[n - 1].loaded)
  }

  predicate TriggersAt(checks: seq<Check>, c: string, n: nat)
    requires n < |checks|
  {
    Triggers(MissingBefore(checks, n), checks[n].group, checks[n].loaded, c)
  }

  /** A connection stays noted until a check of its group sees it loaded. */
  lemma {:induction false} StaysMissing(checks: seq<Check>, c: string, i: nat, j: nat)
    requires i <= j <= |checks| && c in MissingBefore(checks, i)
    requires forall m :: i <= m < j && c in checks[m].group ==> c !in checks[m].loaded
    ensures c in MissingBefore(checks, j)
    decreases j - i
  {
    if i < j {
      StaysMissing(checks, c, i, j - 1);
    }
  }

  /** A missing connection triggers exactly on the falling edge: at the first check that misses it,
      or the first one after a check that saw it loaded. */
  lemma TriggersOnEdge(checks: seq<Check>, c: string, n: nat)
    requires n < |checks| && c in checks[n].group && c !in checks[n].loaded
    ensures TriggersAt(checks, c, n) <==>
      forall i :: 0 <= i < n && c in checks[i].group && c !in checks[i].loaded ==>
        exists m :: i < m < n && c in checks[m].group && c in checks[m].loaded
  {
    if TriggersAt(checks, c, n) {
      forall i | 0 <= i < n && c in checks[i].group && c !in checks[i].loaded
        ensures exists m :: i < m < n && c in checks[m].group && c in checks[m].loaded
      {
        assert c in MissingBefore(checks, i + 1);
        if forall m :: i < m < n && c in checks[m].group ==> c !in checks[m].loaded {
          StaysMissing(checks, c, i + 1, n);
        }
      }
    } else {
      var i := LastMissed(checks, c, n);
      assert forall m :: i < m < n && c in checks[m].group ==> c !in checks[m].loaded;
    }
  }

  lemma {:induction false} LastMissed(checks: seq<Check>, c: string, n: nat) returns (i: nat)
    requires n <= |checks| && c in MissingBefore(checks, n)
    ensures i < n && c in checks[i].group && c !in checks[i].loaded
    ensures forall m :: i < m < n && c in checks[m].group ==> c !in checks[m].loaded
  {
    if c in checks[n - 1].group && c !in checks[n - 1].loaded {
      i := n - 1;
    } else {
      i := LastMissed(checks, c, n - 1);
    }
  }
}

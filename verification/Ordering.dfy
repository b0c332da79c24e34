/** Names in order: comparison, sorting and binary search as the `strings` and `slices` packages
    do them. */
module Ordering {
  import opened Lists

  /** `a` comes strictly before `b`. */
  predicate Below(a: string, b: string) {
    if b == "" then false
    else if a == "" then true
    else if a[0] != b[0] then a[0] < b[0]
    else Below(a[1..], b[1..])
  }

  lemma {:induction false} Trichotomy(a: string, b: string)
    ensures Below(a, b) || a == b || Below(b, a)
    ensures !(Below(a, b) && Below(b, a)) && !(a == b && Below(a, b))
  {
    if a != "" && b != "" && a[0] == b[0] {
      Trichotomy(a[1..], b[1..]);
      assert a == [a[0]] + a[1..] && b == [b[0]] + b[1..];
    }
  }

  lemma {:induction false} Transitive(a: string, b: string, c: string)
    requires Below(a, b) && Below(b, c)
    ensures Below(a, c)
  {
    if a != "" && a[0] == b[0] && b[0] == c[0] {
      Transitive(a[1..], b[1..], c[1..]);
    }
  }

  /** The first place where they differ, or where one ends, is there. */
  predicate SameUpTo(a: string, b: string, i: nat) {
    i <= |a| && i <= |b| && forall j :: 0 <= j < i ==> a[j] == b[j]
  }

  lemma SameTails(a: string, b: string, i: nat)
    requires a != "" && b != "" && a[0] == b[0]
    ensures SameUpTo(a, b, i + 1) <==> SameUpTo(a[1..], b[1..], i)
  {
    if SameUpTo(a[1..], b[1..], i) {
      forall j | 0 <= j < i + 1 ensures a[j] == b[j] {
        assert j > 0 ==> a[j] == a[1..][j - 1] && b[j] == b[1..][j - 1];
      }
    }
  }

  /** Both agree up to a place where the one ends and the other does not, or has the smaller character. */
  lemma {:induction false} BelowIs(a: string, b: string)
    ensures Below(a, b) <==> exists i: nat :: SameUpTo(a, b, i) && i < |b| && (i == |a| || a[i] < b[i])
  {
    if a != "" && b != "" && a[0] == b[0] {
      var c, d := a[1..], b[1..];
      BelowIs(c, d);
      if Below(a, b) {
        var i: nat :| SameUpTo(c, d, i) && i < |d| && (i == |c| || c[i] < d[i]);
        SameTails(a, b, i);
        assert SameUpTo(a, b, i + 1);
      }
      if i: nat :| SameUpTo(a, b, i) && i < |b| && (i == |a| || a[i] < b[i]) {
        assert i > 0;
        SameTails(a, b, i - 1);
        assert SameUpTo(c, d, i - 1);
      }
    } else {
      assert SameUpTo(a, b, 0);
    }
  }

  predicate Ascending(s: seq<string>) {
    forall i, j :: 0 <= i < j < |s| ==> !Below(s[j], s[i])
  }

  function Insert(x: string, s: seq<string>): (r: seq<string>)
    ensures multiset(r) == multiset(s) + multiset{x}
  {
    if s == [] then [x]
    else if Below(s[0], x) then assert s == [s[0]] + s[1..]; [s[0]] + Insert(x, s[1..])
    else [x] + s
  }

  function Sort(s: seq<string>): (r: seq<string>)
    ensures multiset(r) == multiset(s)
  {
    if s == [] then [] else assert s == [s[0]] + s[1..]; Insert(s[0], Sort(s[1..]))
  }

  lemma {:induction false} InsertAscending(x: string, s: seq<string>)
    requires Ascending(s)
    ensures Ascending(Insert(x, s))
  {
    if s != [] {
      if Below(s[0], x) {
        InsertAscending(x, s[1..]);
        var r := Insert(x, s[1..]);
        forall j | 0 <= j < |r| ensures !Below(r[j], s[0]) {
          Trichotomy(s[0], x);
          assert r[j] in multiset(r) && (r[j] == x || r[j] in multiset(s[1..]));
        }
      } else {
        forall j | 0 < j < |s| && Below(s[j], x) ensures false {
          Trichotomy(s[0], s[j]);
          if s[0] != s[j] {
            Transitive(s[0], s[j], x);
          }
        }
      }
    }
  }

  lemma {:induction false} SortAscending(s: seq<string>)
    ensures Ascending(Sort(s))
  {
    if s != [] {
      SortAscending(s[1..]);
      InsertAscending(s[0], Sort(s[1..]));
    }
  }

  /** Two ascending lists of the same names are the same list. */
  lemma {:induction false} AscendingUnique(s: seq<string>, t: seq<string>)
    requires Ascending(s) && Ascending(t) && multiset(s) == multiset(t)
    ensures s == t
  {
    assert |s| == |multiset(s)| && |t| == |multiset(t)|;
    if s != [] {
      assert s[0] in multiset(t) && t[0] in multiset(s);
      Trichotomy(s[0], t[0]);
      assert s == [s[0]] + s[1..] && t == [t[0]] + t[1..];
      assert multiset(s[1..]) == multiset(s) - multiset{s[0]};
      assert multiset(t[1..]) == multiset(t) - multiset{t[0]};
      AscendingUnique(s[1..], t[1..]);
    }
  }

  /** The first of some names, as sorting them gives it. */
  predicate IsFirst(c: string, names: set<string>) {
    c in names && forall d :: d in names ==> !Below(d, c)
  }

  lemma SortFindsFirst(s: seq<string>)
    requires s != []
    ensures Sort(s) != [] && IsFirst(Sort(s)[0], set x | x in s)
  {
    var r := Sort(s);
    SortAscending(s);
    assert |r| == |multiset(r)| && |s| == |multiset(s)|;
    assert r[0] in multiset(s);
    forall d | d in s ensures !Below(d, r[0]) {
      assert d in multiset(r);
      Trichotomy(r[0], r[0]);
    }
  }

  // ---------------------------------------------------------------- binary search

  predicate StrictlyAscending(s: seq<string>) {
    forall i, j :: 0 <= i < j < |s| ==> Below(s[i], s[j])
  }

  /** The index at which halving the window `[i, j)` ends. */
  function Landing(s: seq<string>, target: string, i: nat, j: nat): (r: nat)
    requires i <= j <= |s|
    ensures i <= r <= j
    decreases j - i
  {
    if i == j then i
    else
      var h := (i + j) / 2;
      if Below(s[h], target) then Landing(s, target, h + 1, j) else Landing(s, target, i, h)
  }

  predicate Found(s: seq<string>, target: string) {
    var i := Landing(s, target, 0, |s|);
    i < |s| && s[i] == target
  }

  /** `slices.BinarySearchFunc` on a list of names: the found flag. */
  method BinarySearch(s: seq<string>, target: string) returns (found: bool)
    ensures found <==> Found(s, target)
  {
    var i, j := 0, |s|;
    while i < j
      invariant 0 <= i <= j <= |s|
      invariant Landing(s, target, i, j) == Landing(s, target, 0, |s|)
    {
      var h := (i + j) / 2;
      if Below(s[h], target) {
        i := h + 1;
      } else {
        j := h;
      }
    }
    found := i < |s| && s[i] == target;
  }

  lemma {:induction false} LandingSplits(s: seq<string>, target: string, i: nat, j: nat)
    requires StrictlyAscending(s) && i <= j <= |s|
    requires forall k :: 0 <= k < i ==> Below(s[k], target)
    requires forall k :: j <= k < |s| ==> !Below(s[k], target)
    ensures var r := Landing(s, target, i, j);
      && (forall k :: 0 <= k < r ==> Below(s[k], target))
      && (forall k :: r <= k < |s| ==> !Below(s[k], target))
    decreases j - i
  {
    if i < j {
      var h := (i + j) / 2;
      if Below(s[h], target) {
        forall k | 0 <= k < h ensures Below(s[k], target) {
          Transitive(s[k], s[h], target);
        }
        LandingSplits(s, target, h + 1, j);
      } else {
        forall k | h < k < |s| ensures !Below(s[k], target) {
          if Below(s[k], target) {
            Transitive(s[h], s[k], target);
          }
        }
        LandingSplits(s, target, i, h);
      }
    }
  }

  /** On a strictly ascending list the search is membership. */
  lemma FoundIffMember(s: seq<string>, target: string)
    requires StrictlyAscending(s)
    ensures Found(s, target) <==> target in s
  {
    LandingSplits(s, target, 0, |s|);
    Trichotomy(target, target);
    var r := Landing(s, target, 0, |s|);
    if r < |s| {
      Trichotomy(s[r], target);
    }
  }

  /** Members found in a window are found in the half they are in, and the middle splits them. */
  lemma FoundInHalves(s: seq<string>, i: nat, j: nat, k: nat)
    requires Distinct(s) && i <= k < j <= |s| && Landing(s, s[k], i, j) == k
    ensures var h := (i + j) / 2;
      && (k < h ==> Landing(s, s[k], i, h) == k && Below(s[k], s[h]))
      && (k > h ==> Landing(s, s[k], h + 1, j) == k && Below(s[h], s[k]))
  {
    var h := (i + j) / 2;
    Trichotomy(s[k], s[h]);
  }

  ghost predicate Ascends(s: seq<string>, i: nat, j: nat)
    requires j <= |s|
  {
    forall k, l :: i <= k < l < j ==> Below(s[k], s[l])
  }

  /** Members of a window that the search finds there are in order. */
  lemma {:induction false} AllFoundAscend(s: seq<string>, i: nat, j: nat)
    requires Distinct(s) && i <= j <= |s|
    requires forall k :: i <= k < j ==> Landing(s, s[k], i, j) == k
    ensures Ascends(s, i, j)
    decreases j - i
  {
    if i < j {
      var h := (i + j) / 2;
      AllFoundHalves(s, i, j, h);
      AllFoundAscend(s, i, h);
      AllFoundAscend(s, h + 1, j);
      HalvesAscend(s, i, h, j);
    }
  }

  lemma HalvesAscend(s: seq<string>, i: nat, h: nat, j: nat)
    requires i <= h < j <= |s| && Ascends(s, i, h) && Ascends(s, h + 1, j)
    requires forall k :: i <= k < h ==> Below(s[k], s[h])
    requires forall k :: h < k < j ==> Below(s[h], s[k])
    ensures Ascends(s, i, j)
  {
    forall k, l | i <= k < l < j ensures Below(s[k], s[l]) {
      if k < h < l {
        Transitive(s[k], s[h], s[l]);
      }
    }
  }

  lemma AllFoundHalves(s: seq<string>, i: nat, j: nat, h: nat)
    requires Distinct(s) && i < j <= |s| && h == (i + j) / 2
    requires forall k :: i <= k < j ==> Landing(s, s[k], i, j) == k
    ensures forall k :: i <= k < h ==> Landing(s, s[k], i, h) == k
    ensures forall k :: i <= k < h ==> Below(s[k], s[h])
    ensures forall k :: h < k < j ==> Landing(s, s[k], h + 1, j) == k
    ensures forall k :: h < k < j ==> Below(s[h], s[k])
  {
    forall k | i <= k < h ensures Landing(s, s[k], i, h) == k && Below(s[k], s[h]) {
      FoundInHalves(s, i, j, k);
    }
    forall k | h < k < j ensures Landing(s, s[k], h + 1, j) == k && Below(s[h], s[k]) {
      FoundInHalves(s, i, j, k);
    }
  }

  /** On a list without duplicates the search finds every member exactly when the list is sorted. */
  lemma FindsAllIff(s: seq<string>)
    requires Distinct(s)
    ensures (forall target :: Found(s, target) <==> target in s) <==> StrictlyAscending(s)
  {
    if StrictlyAscending(s) {
      forall target ensures Found(s, target) <==> target in s {
        FoundIffMember(s, target);
      }
    } else if forall target :: Found(s, target) <==> target in s {
      forall k | 0 <= k < |s| ensures Landing(s, s[k], 0, |s|) == k {
        assert s[k] in s && Found(s, s[k]);
      }
      AllFoundAscend(s, 0, |s|);
    }
  }

  /** Such a list, and the member that is missed. */
  lemma UnsortedMisses()
    ensures "a" in ["b", "a"] && !Found(["b", "a"], "a")
  {}
}

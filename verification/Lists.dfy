/** Sequence operations the operator's loops are built from. */
module Lists {

  predicate Distinct<T(==)>(s: seq<T>) {
    forall i, j :: 0 <= i < j < |s| ==> s[i] != s[j]
  }

  function Elements<T(==)>(s: seq<T>): set<T> {
    set x | x in s
  }

  /** The elements of `s` outside `taken`, in order: what `slices.DeleteFunc` returns. */
  function Without<T(==, !new)>(s: seq<T>, taken: set<T>): (r: seq<T>)
    ensures |r| <= |s|
    ensures forall x :: x in r <==> x in s && x !in taken
  {
    if s == [] then []
    else if s[0] in taken then Without(s[1..], taken)
    else [s[0]] + Without(s[1..], taken)
  }

  lemma {:induction false} WithoutDistinct<T(!new)>(s: seq<T>, taken: set<T>)
    requires Distinct(s)
    ensures Distinct(Without(s, taken))
  {
    if s != [] {
      WithoutDistinct(s[1..], taken);
    }
  }

  lemma {:induction false} WithoutNone<T(!new)>(s: seq<T>, taken: set<T>)
    requires forall x :: x in s ==> x !in taken
    ensures Without(s, taken) == s
  {
    if s != [] {
      WithoutNone(s[1..], taken);
    }
  }

  lemma {:induction false} WithoutAll<T(!new)>(s: seq<T>, taken: set<T>)
    requires forall x :: x in s ==> x in taken
    ensures Without(s, taken) == []
  {
    if s != [] {
      WithoutAll(s[1..], taken);
    }
  }

  /** Deleting more can be done on top of what was deleted already. */
  lemma {:induction false} WithoutTwice<T(!new)>(s: seq<T>, first: set<T>, second: set<T>)
    ensures Without(Without(s, first), second) == Without(s, first + second)
  {
    if s != [] {
      WithoutTwice(s[1..], first, second);
    }
  }

  lemma {:induction false} WithoutConcat<T(!new)>(s: seq<T>, t: seq<T>, taken: set<T>)
    ensures Without(s + t, taken) == Without(s, taken) + Without(t, taken)
  {
    if s == [] {
      assert s + t == t;
    } else {
      assert (s + t)[1..] == s[1..] + t;
      WithoutConcat(s[1..], t, taken);
    }
  }

  /** Taking the first survivor out of a duplicate-free list. */
  lemma WithoutHead<T(!new)>(s: seq<T>, taken: set<T>)
    requires Distinct(s) && Without(s, taken) != []
    ensures Without(s, taken + {Without(s, taken)[0]}) == Without(s, taken)[1..]
  {
    var r := Without(s, taken);
    WithoutDistinct(s, taken);
    WithoutTwice(s, taken, {r[0]});
    assert r == [r[0]] + r[1..];
    WithoutConcat([r[0]], r[1..], {r[0]});
    WithoutNone(r[1..], {r[0]});
  }

  /** `s` lists every element of `all` once, in some order: one iteration over a Go map. */
  ghost predicate Enumerates<T(!new)>(s: seq<T>, all: set<T>) {
    Distinct(s) && forall x :: x in s <==> x in all
  }

  lemma EnumeratesSome<T(!new)>(s: seq<T>, all: set<T>)
    requires Enumerates(s, all) && s != []
    ensures all != {}
  {
    assert s[0] in all;
  }

  lemma DropOneMore<T>(s: seq<T>, i: nat)
    requires i < |s|
    ensures s[i..] != [] && s[i..][0] == s[i] && s[i..][1..] == s[i + 1..]
  {}

  lemma TakeOneMore<T>(s: seq<T>, i: nat)
    requires i < |s|
    ensures s[..i + 1] == s[..i] + [s[i]]
  {}

  /** Indices in order. */
  ghost predicate Rising(at: seq<nat>) {
    forall i, j :: 0 <= i < j < |at| ==> at[i] < at[j]
  }

  /** The indices whose elements are left, in order. */
  lemma {:induction false} WithoutPicks<T(!new)>(s: seq<T>, taken: set<T>) returns (at: seq<nat>)
    ensures Rising(at) && |at| == |Without(s, taken)|
    ensures forall i :: 0 <= i < |at| ==> at[i] < |s| && Without(s, taken)[i] == s[at[i]]
    ensures forall j: nat :: j < |s| ==> (j in at <==> s[j] !in taken)
  {
    at := [];
    if s != [] {
      var n := |s| - 1;
      var before := WithoutPicks(s[..n], taken);
      assert s == s[..n] + [s[n]];
      WithoutConcat(s[..n], [s[n]], taken);
      at := before + if s[n] in taken then [] else [n];
    }
  }
}

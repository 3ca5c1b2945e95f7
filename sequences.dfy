/** Small facts about sequences shared by the agreement and the active-learning models. */
module Sequences {

  /** `s` is `t` with some elements left out, the rest in their original order. */
  predicate IsSubsequence<T(==)>(s: seq<T>, t: seq<T>)
    decreases |t|
  {
    if s == [] then true
    else if t == [] then false
    else if s[|s| - 1] == t[|t| - 1] && IsSubsequence(s[..|s| - 1], t[..|t| - 1]) then true
    else IsSubsequence(s, t[..|t| - 1])
  }

  lemma {:induction false} SubsequenceElements<T>(s: seq<T>, t: seq<T>)
    requires IsSubsequence(s, t)
    ensures forall x :: x in s ==> x in t
    decreases |t|
  {
    if s == [] {
    } else if s[|s| - 1] == t[|t| - 1] && IsSubsequence(s[..|s| - 1], t[..|t| - 1]) {
      SubsequenceElements(s[..|s| - 1], t[..|t| - 1]);
      assert s == s[..|s| - 1] + [s[|s| - 1]];
      assert t == t[..|t| - 1] + [t[|t| - 1]];
    } else {
      SubsequenceElements(s, t[..|t| - 1]);
      assert t == t[..|t| - 1] + [t[|t| - 1]];
    }
  }

  /** No element occurs twice (the content of a Java `Set` kept in insertion order). */
  predicate NoDuplicates<T(==)>(s: seq<T>)
  {
    forall i, j :: 0 <= i < j < |s| ==> s[i] != s[j]
  }

  /** The concatenation of a list of lists (`stream().flatMap(...).collect(toList())`). */
  function Flatten<T>(xss: seq<seq<T>>): seq<T>
    decreases |xss|
  {
    if xss == [] then [] else Flatten(xss[..|xss| - 1]) + xss[|xss| - 1]
  }

  /** An element is in the concatenation exactly when it is in one of the lists. */
  lemma {:induction false} FlattenMembers<T>(xss: seq<seq<T>>)
    ensures forall x :: x in Flatten(xss) <==> exists i :: 0 <= i < |xss| && x in xss[i]
    decreases |xss|
  {
    if xss != [] {
      var init := xss[..|xss| - 1];
      FlattenMembers(init);
      assert forall i :: 0 <= i < |init| ==> init[i] == xss[i];
    }
  }

  /** Concatenating one more list appends its elements. */
  lemma {:induction false} FlattenAppend<T>(xss: seq<seq<T>>, ys: seq<T>)
    ensures Flatten(xss + [ys]) == Flatten(xss) + ys
  {
    assert (xss + [ys])[..|xss|] == xss;
  }

  /** The concatenation is as long as all lists together. */
  lemma {:induction false} FlattenLength<T>(xss: seq<seq<T>>)
    ensures |Flatten(xss)| == TotalLength(xss)
    decreases |xss|
  {
    if xss != [] {
      FlattenLength(xss[..|xss| - 1]);
      TotalLengthLast(xss);
    }
  }

  function TotalLength<T>(xss: seq<seq<T>>): nat
    decreases |xss|
  {
    if xss == [] then 0 else |xss[0]| + TotalLength(xss[1..])
  }

  lemma {:induction false} TotalLengthLast<T>(xss: seq<seq<T>>)
    requires xss != []
    ensures TotalLength(xss) == TotalLength(xss[..|xss| - 1]) + |xss[|xss| - 1]|
    decreases |xss|
  {
    if |xss| > 1 {
      TotalLengthLast(xss[1..]);
      assert xss[1..][..|xss[1..]| - 1] == xss[..|xss| - 1][1..];
    }
  }
}

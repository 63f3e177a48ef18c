/** Subsequences: what is left of a sequence after dropping some of its elements. */
module Subsequences {

  ghost predicate IsSub<T>(a: seq<T>, b: seq<T>)
    decreases |b|
  {
    || a == []
    || (b != [] && a[|a| - 1] == b[|b| - 1] && IsSub(a[..|a| - 1], b[..|b| - 1]))
    || (b != [] && IsSub(a, b[..|b| - 1]))
  }

  ghost predicate NoEqualNeighbours<T>(a: seq<T>) {
    forall i :: 0 < i < |a| ==> a[i - 1] != a[i]
  }

  lemma SubSelf<T>(a: seq<T>)
    ensures IsSub(a, a)
  {
  }

  lemma SubExtendBoth<T>(a: seq<T>, b: seq<T>, x: T)
    requires IsSub(a, b)
    ensures IsSub(a + [x], b + [x])
  {
    assert (a + [x])[..|a|] == a && (b + [x])[..|b|] == b;
  }

  lemma SubExtendRight<T>(a: seq<T>, b: seq<T>, x: T)
    requires IsSub(a, b)
    ensures IsSub(a, b + [x])
  {
    assert (b + [x])[..|b|] == b;
  }

  lemma {:induction false} SubRemove<T>(left: seq<T>, x: T, right: seq<T>, b: seq<T>)
    requires IsSub(left + [x] + right, b)
    ensures IsSub(left + right, b)
    decreases |b|
  {
    var a := left + [x] + right;
    var b' := b[..|b| - 1];
    assert b == b' + [b[|b| - 1]];
    if IsSub(a, b') {
      SubRemove(left, x, right, b');
      SubExtendRight(left + right, b', b[|b| - 1]);
    } else if right == [] {
      assert a[..|a| - 1] == left && left + right == left;
      SubExtendRight(left, b', b[|b| - 1]);
    } else {
      var right' := right[..|right| - 1];
      assert a[..|a| - 1] == left + [x] + right';
      SubRemove(left, x, right', b');
      SubExtendBoth(left + right', b', b[|b| - 1]);
      assert left + right == left + right' + [b[|b| - 1]];
    }
  }
}

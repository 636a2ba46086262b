/**
 * Insertion sort by a numeric key, standing in for `List.sort` with
 * `Integer.compare` on keypoint indices and for `Arrays.sort` on
 * probabilities. Each element is inserted into the sorted rest before the
 * first element whose key is not smaller.
 */
module Sorting {

  predicate SortedBy<T>(s: seq<T>, key: T -> real) {
    forall i, j :: 0 <= i < j < |s| ==> key(s[i]) <= key(s[j])
  }

  predicate StrictlySortedBy<T>(s: seq<T>, key: T -> real) {
    forall i, j :: 0 <= i < j < |s| ==> key(s[i]) < key(s[j])
  }

  function InsertBy<T>(x: T, s: seq<T>, key: T -> real): (r: seq<T>)
    requires SortedBy(s, key)
    ensures |r| == |s| + 1
    ensures multiset(r) == multiset(s) + multiset{x}
    ensures SortedBy(r, key)
    ensures |s| > 0 && key(x) > key(s[0]) ==> r[0] == s[0]
    ensures |s| == 0 || key(x) <= key(s[0]) ==> r[0] == x
  {
    if |s| == 0 then [x]
    else if key(x) <= key(s[0]) then [x] + s
    else
      var t := InsertBy(x, s[1..], key);
      assert s == [s[0]] + s[1..];
      assert key(s[0]) <= key(t[0]);
      [s[0]] + t
  }

  function SortBy<T>(s: seq<T>, key: T -> real): (r: seq<T>)
    ensures |r| == |s|
    ensures multiset(r) == multiset(s)
    ensures SortedBy(r, key)
  {
    if |s| == 0 then []
    else
      assert s == [s[0]] + s[1..];
      InsertBy(s[0], SortBy(s[1..], key), key)
  }

  /**
   * A sequence whose keys strictly increase is the only sorted arrangement of
   * its elements: any sorted permutation of it is the sequence itself.
   */
  lemma {:induction false} SortedPermutationUnique<T>(u: seq<T>, s: seq<T>, key: T -> real)
    requires SortedBy(u, key) && StrictlySortedBy(s, key)
    requires multiset(u) == multiset(s)
    ensures u == s
    decreases |s|
  {
    if |s| == 0 {
      assert |multiset(u)| == 0;
    } else {
      assert |u| == |multiset(u)| == |s|;
      HeadsAgree(u, s, key);
      TailOf(u);
      TailOf(s);
      assert multiset(u[1..]) == multiset(s[1..]);
      SortedTail(u, key);
      StrictlySortedTail(s, key);
      SortedPermutationUnique(u[1..], s[1..], key);
    }
  }

  /** Two sorted arrangements of the same elements, one strictly sorted, start alike. */
  lemma HeadsAgree<T>(u: seq<T>, s: seq<T>, key: T -> real)
    requires SortedBy(u, key) && StrictlySortedBy(s, key)
    requires multiset(u) == multiset(s) && |s| > 0
    ensures |u| > 0 && u[0] == s[0]
  {
    assert |u| == |multiset(u)| == |s|;
    assert u[0] in multiset(s);
    var k :| 0 <= k < |s| && s[k] == u[0];
    assert s[0] in multiset(u);
    var l :| 0 <= l < |u| && u[l] == s[0];
    assert key(u[0]) <= key(u[l]);
    StrictKeyAtFront(s, key, k);
  }

  lemma TailOf<T>(s: seq<T>)
    requires |s| > 0
    ensures s == [s[0]] + s[1..]
    ensures multiset(s[1..]) == multiset(s) - multiset{s[0]}
  {
    assert s == [s[0]] + s[1..];
    assert multiset(s) == multiset{s[0]} + multiset(s[1..]);
  }

  lemma SortedTail<T>(s: seq<T>, key: T -> real)
    requires SortedBy(s, key) && |s| > 0
    ensures SortedBy(s[1..], key)
  {
    forall i, j | 0 <= i < j < |s| - 1
      ensures key(s[1..][i]) <= key(s[1..][j])
    {
      assert s[1..][i] == s[i + 1] && s[1..][j] == s[j + 1];
    }
  }

  lemma StrictlySortedTail<T>(s: seq<T>, key: T -> real)
    requires StrictlySortedBy(s, key) && |s| > 0
    ensures StrictlySortedBy(s[1..], key)
  {
    forall i, j | 0 <= i < j < |s| - 1
      ensures key(s[1..][i]) < key(s[1..][j])
    {
      assert s[1..][i] == s[i + 1] && s[1..][j] == s[j + 1];
    }
  }

  lemma StrictKeyAtFront<T>(s: seq<T>, key: T -> real, k: int)
    requires StrictlySortedBy(s, key)
    requires 0 <= k < |s| && key(s[k]) <= key(s[0])
    ensures k == 0
  {
  }

  /** Sorting a sequence whose keys already strictly increase leaves it unchanged. */
  lemma SortStrictlySortedIsIdentity<T>(s: seq<T>, key: T -> real)
    requires StrictlySortedBy(s, key)
    ensures SortBy(s, key) == s
  {
    SortedPermutationUnique(SortBy(s, key), s, key);
  }
}

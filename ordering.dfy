/** Ordering rows by an integer column, as the store's `orderBy` does: a stable
    insertion sort by a key, with its specification. */
module Ordering {

  /** `key` never decreases along `s`. */
  ghost predicate SortedBy<T>(s: seq<T>, key: T -> int) {
    forall i, j :: 0 <= i < j < |s| ==> key(s[i]) <= key(s[j])
  }

  /** Inserts `x` into a sorted sequence before the first element whose key is not smaller. */
  function Insert<T>(x: T, s: seq<T>, key: T -> int): (r: seq<T>)
    requires SortedBy(s, key)
    ensures SortedBy(r, key)
    ensures multiset(r) == multiset(s) + multiset{x}
    ensures |r| == |s| + 1
    decreases |s|
  {
    if |s| == 0 then [x]
    else if key(x) <= key(s[0]) then [x] + s
    else
      var rest := Insert(x, s[1..], key);
      assert s == [s[0]] + s[1..];
      assert forall k :: 0 <= k < |rest| ==> key(s[0]) <= key(rest[k]) by {
        forall k | 0 <= k < |rest| ensures key(s[0]) <= key(rest[k]) {
          if rest[k] != x {
            assert rest[k] in multiset(s[1..]) by {
              assert rest[k] in multiset(rest);
            }
            HeadBelowTail(s, rest[k], key);
          }
        }
      }
      [s[0]] + rest
  }

  /** In a sorted sequence no later element has a smaller key than the first. */
  lemma HeadBelowTail<T>(s: seq<T>, y: T, key: T -> int)
    requires SortedBy(s, key) && |s| > 0 && y in s[1..]
    ensures key(s[0]) <= key(y)
  {
    var m :| 0 <= m < |s[1..]| && s[1..][m] == y;
    assert s[m + 1] == y;
  }

  /** An element of a sorted sequence that is not among its first `n` has a key no
      smaller than any of them. */
  lemma BeyondPrefix<T>(s: seq<T>, n: nat, x: T, k: nat, key: T -> int)
    requires SortedBy(s, key) && k < n <= |s| && x in s && x !in s[..n]
    ensures key(s[k]) <= key(x)
  {
    var m :| 0 <= m < |s| && s[m] == x;
    assert forall i :: 0 <= i < n ==> s[..n][i] == s[i];
  }

  /** The rows of `s` ordered by ascending `key`. */
  function SortBy<T>(s: seq<T>, key: T -> int): (r: seq<T>)
    ensures SortedBy(r, key)
    ensures multiset(r) == multiset(s)
    ensures |r| == |s|
    decreases |s|
  {
    if |s| == 0 then []
    else
      assert s == [s[0]] + s[1..];
      Insert(s[0], SortBy(s[1..], key), key)
  }

  /** Rows that are already in order stay where they are: sorting them changes nothing. */
  lemma {:induction false} SortSortedIsIdentity<T>(s: seq<T>, key: T -> int)
    requires SortedBy(s, key)
    ensures SortBy(s, key) == s
    decreases |s|
  {
    if |s| > 0 {
      assert SortedBy(s[1..], key);
      SortSortedIsIdentity(s[1..], key);
      assert s == [s[0]] + s[1..];
    }
  }
}

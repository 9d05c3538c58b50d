/** Descending ordering on a two-part integer key, the shape of a Django
    `Meta.ordering` made of two "-field" entries (the second part breaks ties
    of the first). `SortDescending` stands for the ORM applying it. */
module Ordering {

  /** `a` may be listed before `b`: a larger first key, or an equal first key
      and a second key that is not smaller. */
  predicate ListsBefore<T>(key: T -> (int, int), a: T, b: T) {
    key(a).0 > key(b).0 || (key(a).0 == key(b).0 && key(a).1 >= key(b).1)
  }

  /** Every element may be listed before every later one. */
  predicate Descending<T>(key: T -> (int, int), s: seq<T>) {
    forall i, j :: 0 <= i < j < |s| ==> ListsBefore(key, s[i], s[j])
  }

  /** `x` put into the descending sequence `s` before the first element it may precede. */
  function Insert<T(==)>(key: T -> (int, int), x: T, s: seq<T>): (r: seq<T>)
    requires Descending(key, s)
    ensures Descending(key, r)
    ensures multiset(r) == multiset(s) + multiset{x}
    ensures |r| == |s| + 1 && (r[0] == x || (|s| > 0 && r[0] == s[0]))
  {
    if |s| == 0 then [x]
    else if ListsBefore(key, x, s[0]) then
      assert forall k :: 0 <= k < |s| ==> ListsBefore(key, x, s[k]) by {
        forall k | 0 <= k < |s| ensures ListsBefore(key, x, s[k]) {
          if k > 0 { assert ListsBefore(key, s[0], s[k]); }
        }
      }
      [x] + s
    else
      var rest := Insert(key, x, s[1..]);
      assert s == [s[0]] + s[1..];
      assert ListsBefore(key, s[0], rest[0]) by {
        if rest[0] != x { assert rest[0] == s[1]; }
      }
      assert forall k :: 0 <= k < |rest| ==> ListsBefore(key, s[0], rest[k]) by {
        forall k | 0 <= k < |rest| ensures ListsBefore(key, s[0], rest[k]) {
          if k > 0 { assert ListsBefore(key, rest[0], rest[k]); }
        }
      }
      var r := [s[0]] + rest;
      assert forall i, j :: 0 <= i < j < |r| ==> ListsBefore(key, r[i], r[j]) by {
        forall i, j | 0 <= i < j < |r| ensures ListsBefore(key, r[i], r[j]) {
          if i > 0 { assert r[i] == rest[i - 1] && r[j] == rest[j - 1]; }
          else { assert r[j] == rest[j - 1]; }
        }
      }
      r
  }

  /** `s` in descending order of `key`: a permutation of `s`. */
  function SortDescending<T(==)>(key: T -> (int, int), s: seq<T>): (r: seq<T>)
    ensures Descending(key, r)
    ensures multiset(r) == multiset(s)
  {
    if |s| == 0 then []
    else
      assert s == [s[0]] + s[1..];
      Insert(key, s[0], SortDescending(key, s[1..]))
  }

  /** The first `n` elements of a descending sequence may be listed before
      every element that is left out. */
  lemma {:induction false} PrefixListsBeforeRest<T>(key: T -> (int, int), s: seq<T>, n: nat)
    requires Descending(key, s) && n <= |s|
    ensures multiset(s[..n]) <= multiset(s)
    ensures forall a, b :: a in s[..n] && b in multiset(s) - multiset(s[..n]) ==> ListsBefore(key, a, b)
  {
    assert s == s[..n] + s[n..];
    assert multiset(s) == multiset(s[..n]) + multiset(s[n..]);
    forall a, b | a in s[..n] && b in multiset(s) - multiset(s[..n])
      ensures ListsBefore(key, a, b)
    {
      assert b in s[n..];
      var i :| 0 <= i < n && s[..n][i] == a;
      var j :| 0 <= j < |s| - n && s[n..][j] == b;
      assert s[i] == a && s[n + j] == b;
    }
  }
}

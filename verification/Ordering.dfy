/** `ORDER BY` over a finite key table. Equal keys may come out in any order. */
module Ordering {
  predicate KeyLe(a: (int, int), b: (int, int)) {
    a.0 < b.0 || (a.0 == b.0 && a.1 <= b.1)
  }

  ghost predicate SortedBy<T(!new)>(keys: map<T, (int, int)>, s: seq<T>) {
    && (forall x :: x in s <==> x in keys)
    && (forall i, k :: 0 <= i < k < |s| ==> s[i] != s[k])
    && (forall i, k :: 0 <= i < k < |s| ==> KeyLe(keys[s[i]], keys[s[k]]))
  }

  method First<T(!new, ==)>(keys: map<T, (int, int)>, candidates: set<T>) returns (first: T)
    requires candidates != {} && candidates <= keys.Keys
    ensures first in candidates && forall x :: x in candidates ==> KeyLe(keys[first], keys[x])
  {
    first :| first in candidates;
    var todo := candidates - {first};
    while todo != {}
      invariant todo <= candidates && first in candidates
      invariant forall x :: x in candidates - todo ==> KeyLe(keys[first], keys[x])
    {
      var x :| x in todo;
      todo := todo - {x};
      if !KeyLe(keys[first], keys[x]) {
        first := x;
      }
    }
  }

  method OrderBy<T(!new, ==)>(keys: map<T, (int, int)>) returns (s: seq<T>)
    ensures SortedBy(keys, s)
  {
    s := [];
    var todo := keys.Keys;
    while todo != {}
      invariant todo <= keys.Keys
      invariant forall i :: 0 <= i < |s| ==> s[i] in keys && s[i] !in todo
      invariant forall x :: x in keys && x !in todo ==> x in s
      invariant forall i, k :: 0 <= i < k < |s| ==> s[i] != s[k]
      invariant forall i, k :: 0 <= i < k < |s| ==> KeyLe(keys[s[i]], keys[s[k]])
      invariant forall i, x :: 0 <= i < |s| && x in todo ==> KeyLe(keys[s[i]], keys[x])
    {
      var x := First(keys, todo);
      todo := todo - {x};
      s := s + [x];
    }
  }
}

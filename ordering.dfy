/** `find().sort({ createdAt: -1 })`: the listing order of both collections, stated over
    integer creation timestamps. */
module Ordering {

  /** Non-increasing in `stamp`: every record comes before the ones created earlier. */
  predicate NewestFirst<T>(s: seq<T>, stamp: T -> int)
  {
    forall i, j :: 0 <= i < j < |s| ==> stamp(s[i]) >= stamp(s[j])
  }

  /** Puts `x` in front of the first record it is not older than. */
  function Insert<T>(x: T, s: seq<T>, stamp: T -> int): (r: seq<T>)
    requires NewestFirst(s, stamp)
    ensures NewestFirst(r, stamp)
    ensures multiset(r) == multiset(s) + multiset{x}
    ensures r[0] == x || (s != [] && r[0] == s[0])
  {
    if s == [] || stamp(x) >= stamp(s[0]) then [x] + s
    else
      var rest := Insert(x, s[1..], stamp);
      assert s == [s[0]] + s[1..];
      [s[0]] + rest
  }

  /** The records of `s`, each as often as in `s`, newest first. */
  function SortNewestFirst<T>(s: seq<T>, stamp: T -> int): (r: seq<T>)
    ensures NewestFirst(r, stamp)
    ensures multiset(r) == multiset(s)
  {
    if s == [] then []
    else
      assert s == [s[0]] + s[1..];
      Insert(s[0], SortNewestFirst(s[1..], stamp), stamp)
  }
}

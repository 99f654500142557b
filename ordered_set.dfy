/**
 * A JavaScript `Set` seen through its iteration order: a sequence without
 * duplicates, where `add` appends a new element and keeps an old one where it
 * was, and `delete` drops an element and keeps the order of the rest.
 */
module OrderedSet {

  predicate NoDuplicates<T(==)>(s: seq<T>)
  {
    forall i, j :: 0 <= i < j < |s| ==> s[i] != s[j]
  }

  /** `set.add(x)`. */
  function Insert<T(==,!new)>(s: seq<T>, x: T): (r: seq<T>)
    ensures s <= r
    ensures x in r && forall y :: y in r <==> y in s || y == x
    ensures NoDuplicates(s) ==> NoDuplicates(r)
  {
    if x in s then s else s + [x]
  }

  /** `set.delete(x)`. */
  function Delete<T(==,!new)>(s: seq<T>, x: T): (r: seq<T>)
    ensures x !in r
    ensures forall y :: y != x ==> (y in r <==> y in s)
    ensures |r| <= |s|
  {
    if s == [] then []
    else if s[0] == x then Delete(s[1..], x)
    else [s[0]] + Delete(s[1..], x)
  }

  lemma {:induction false} DeleteAbsent<T(!new)>(s: seq<T>, x: T)
    requires x !in s
    ensures Delete(s, x) == s
  {
    if s != [] {
      DeleteAbsent(s[1..], x);
    }
  }

  /** Deleting the oldest element of a duplicate-free sequence drops exactly its head. */
  lemma {:induction false} DeleteOldest<T(!new)>(s: seq<T>)
    requires s != [] && NoDuplicates(s)
    ensures Delete(s, s[0]) == s[1..]
  {
    assert s[0] !in s[1..] by {
      forall k | 0 <= k < |s[1..]| ensures s[1..][k] != s[0] {
        assert s[1..][k] == s[k + 1];
      }
    }
    DeleteAbsent(s[1..], s[0]);
  }
}

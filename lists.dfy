/**
 * The java.util.List operations the registry and the customer rely on,
 * stated on Dafny sequences.
 */
module Lists {

  /** No element occurs twice. */
  ghost predicate Distinct<T>(s: seq<T>)
  {
    forall i, j :: 0 <= i < j < |s| ==> s[i] != s[j]
  }

  /** List.indexOf: the index of the first element equal to x, or -1 when there is none. */
  function IndexOf<T(==)>(s: seq<T>, x: T): (i: int)
    ensures -1 <= i < |s|
    ensures i == -1 <==> x !in s
    ensures 0 <= i ==> s[i] == x && x !in s[..i]
  {
    if s == [] then -1
    else if s[0] == x then 0
    else
      var j := IndexOf(s[1..], x);
      assert 0 <= j ==> s[..j + 1] == [s[0]] + s[1..][..j];
      if j == -1 then -1 else j + 1
  }

  /**
   * List.remove(Object): drops the first element equal to x and keeps the
   * order of the rest; a list that does not hold x comes back unchanged.
   */
  function RemoveFirst<T(==)>(s: seq<T>, x: T): (r: seq<T>)
    ensures x !in s ==> r == s
    ensures multiset(r) == multiset(s) - multiset{x}
  {
    if s == [] then []
    else
      assert s == [s[0]] + s[1..];
      if s[0] == x then s[1..] else [s[0]] + RemoveFirst(s[1..], x)
  }

  /** What List.remove(Object) leaves: everything before and everything after the first occurrence. */
  lemma {:induction false} RemoveFirstAt<T>(s: seq<T>, x: T)
    requires x in s
    ensures RemoveFirst(s, x) == s[..IndexOf(s, x)] + s[IndexOf(s, x) + 1..]
  {
    if s[0] != x {
      var t := s[1..];
      var j := IndexOf(t, x);
      assert IndexOf(s, x) == j + 1;
      assert RemoveFirst(s, x) == [s[0]] + RemoveFirst(t, x);
      RemoveFirstAt(t, x);
      SliceAround(s, j);
    }
  }

  /** An element whose first occurrence is at k is removed from exactly that index. */
  lemma RemoveFirstAtIndex<T>(s: seq<T>, k: int)
    requires 0 <= k < |s| && s[k] !in s[..k]
    ensures RemoveFirst(s, s[k]) == s[..k] + s[k + 1..]
  {
    RemoveFirstAt(s, s[k]);
    assert IndexOf(s, s[k]) == k;
  }

  lemma SliceAround<T>(s: seq<T>, j: nat)
    requires j + 1 < |s|
    ensures s[..j + 1] + s[j + 2..] == [s[0]] + (s[1..][..j] + s[1..][j + 1..])
  {
  }

  /** Removing an element just appended to a list that did not hold it restores the list. */
  lemma {:induction false} RemoveAppended<T>(s: seq<T>, x: T)
    requires x !in s
    ensures RemoveFirst(s + [x], x) == s
  {
    if s != [] {
      assert (s + [x])[1..] == s[1..] + [x];
      RemoveAppended(s[1..], x);
    }
  }

  /** In a list without duplicates, the index of an element is its position. */
  lemma IndexOfDistinct<T>(s: seq<T>, k: int)
    requires Distinct(s) && 0 <= k < |s|
    ensures IndexOf(s, s[k]) == k
  {
  }
}

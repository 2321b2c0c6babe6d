/**
 * The list edits the app performs with Swift's `removeAll(where: { $0 == x })`
 * and `if !contains(x) { append(x) }`.
 */
module SeqUtil {

  predicate NoDuplicates<T(==)>(s: seq<T>) {
    forall i, j :: 0 <= i < j < |s| ==> s[i] != s[j]
  }

  /** `s.removeAll { $0 == x }`: every occurrence of x is dropped, the rest keep their order. */
  function RemoveAll<T(==)>(s: seq<T>, x: T): (r: seq<T>)
    ensures x !in r
    ensures forall y :: y in r ==> y in s
  {
    if s == [] then []
    else if s[0] == x then RemoveAll(s[1..], x) else [s[0]] + RemoveAll(s[1..], x)
  }

  /** Every other element keeps its number of occurrences, and the list shrinks by the occurrences of x. */
  lemma {:induction false} RemoveAllCounts<T>(s: seq<T>, x: T)
    ensures forall y :: y in s && y != x ==> multiset(RemoveAll(s, x))[y] == multiset(s)[y]
    ensures |RemoveAll(s, x)| == |s| - multiset(s)[x]
  {
    if s != [] {
      assert s == [s[0]] + s[1..];
      RemoveAllCounts(s[1..], x);
    }
  }

  /** Removing distributes over concatenation, so the survivors keep their relative order. */
  lemma {:induction false} RemoveAllAppend<T>(a: seq<T>, b: seq<T>, x: T)
    ensures RemoveAll(a + b, x) == RemoveAll(a, x) + RemoveAll(b, x)
  {
    if a == [] {
      assert a + b == b;
    } else {
      assert (a + b)[1..] == a[1..] + b;
      RemoveAllAppend(a[1..], b, x);
    }
  }

  /** Removing from a list extended by one element. */
  lemma RemoveAllSnoc<T>(a: seq<T>, y: T, x: T)
    ensures RemoveAll(a + [y], x) == RemoveAll(a, x) + (if y == x then [] else [y])
  {
    RemoveAllAppend(a, [y], x);
    assert [y][1..] == [];
  }

  /** Removing an element that is absent changes nothing. */
  lemma {:induction false} RemoveAllAbsent<T>(s: seq<T>, x: T)
    requires x !in s
    ensures RemoveAll(s, x) == s
  {
    if s != [] {
      RemoveAllAbsent(s[1..], x);
    }
  }

  /** A duplicate-free list stays duplicate-free when elements are removed. */
  lemma {:induction false} RemoveAllKeepsNoDuplicates<T>(s: seq<T>, x: T)
    requires NoDuplicates(s)
    ensures NoDuplicates(RemoveAll(s, x))
  {
    if s != [] {
      RemoveAllKeepsNoDuplicates(s[1..], x);
      var rest := RemoveAll(s[1..], x);
      if s[0] != x {
        assert s[0] !in s[1..];
        assert multiset(rest)[s[0]] == 0;
        assert s[0] !in rest;
      }
    }
  }

  /** `if !s.contains(x) { s.append(x) }`. */
  function AppendIfAbsent<T(==)>(s: seq<T>, x: T): (r: seq<T>)
    ensures x in r
    ensures forall y :: y in s ==> y in r
    ensures forall y :: y in r ==> y in s || y == x
    ensures NoDuplicates(s) ==> NoDuplicates(r)
    ensures x in s ==> r == s
    ensures x !in s ==> r == s + [x]
  {
    if x in s then s else s + [x]
  }
}

/** Sequences without repetition, up to the order of their elements. */
module Sequences {

  predicate NoDuplicates<T(==)>(s: seq<T>) {
    forall i, j :: 0 <= i < j < |s| ==> s[i] != s[j]
  }

  predicate Increasing(s: seq<int>) {
    forall i, j :: 0 <= i < j < |s| ==> s[i] < s[j]
  }

  lemma {:induction false} CountedOnce<T>(s: seq<T>, x: T)
    requires NoDuplicates(s)
    ensures multiset(s)[x] == if x in s then 1 else 0
  {
    if s != [] {
      var front, last := s[..|s| - 1], s[|s| - 1];
      CountedOnce(front, x);
      assert s == front + [last];
    }
  }

  /** Two repetition-free sequences with the same elements are rearrangements of each other. */
  lemma SameElements<T>(s: seq<T>, t: seq<T>)
    requires NoDuplicates(s) && NoDuplicates(t)
    requires forall x :: x in s <==> x in t
    ensures multiset(s) == multiset(t)
  {
    forall x ensures multiset(s)[x] == multiset(t)[x] {
      CountedOnce(s, x);
      CountedOnce(t, x);
    }
  }

  lemma CountedTwice<T>(s: seq<T>, i: nat, j: nat)
    requires i < j < |s| && s[i] == s[j]
    ensures multiset(s)[s[i]] >= 2
  {
    var a, b := s[..j], s[j..];
    assert s == a + b;
    assert s[i] == a[i] && s[i] in a;
    assert s[j] == b[0] && s[j] in b;
  }

  /** A rearrangement has the same elements, and repeats none if the original repeats none. */
  lemma Rearranged<T>(s: seq<T>, t: seq<T>)
    requires multiset(s) == multiset(t)
    ensures forall x :: x in s <==> x in t
    ensures NoDuplicates(s) ==> NoDuplicates(t)
  {
    forall x ensures x in s <==> x in t {
      assert x in s <==> x in multiset(s);
      assert x in t <==> x in multiset(t);
    }
    if NoDuplicates(s) {
      forall i, j | 0 <= i < j < |t| ensures t[i] != t[j] {
        if t[i] == t[j] {
          CountedTwice(t, i, j);
          CountedOnce(s, t[i]);
        }
      }
    }
  }

  lemma AppendOne<T>(s: seq<T>, t: seq<T>)
    requires NoDuplicates(s) && |t| <= 1 && forall x :: x in t ==> x !in s
    ensures NoDuplicates(s + t)
  {
    if |t| == 1 {
      assert t[0] in t && t[0] !in s;
    }
  }

  /** The dictionary a loop over the rows builds: a later row replaces an earlier one with the same key. */
  function IndexBy<K, V>(rows: seq<V>, key: V -> K): map<K, V> {
    if rows == [] then
      map[]
    else
      var last := rows[|rows| - 1];
      IndexBy(rows[..|rows| - 1], key)[key(last) := last]
  }

  predicate KeysDiffer<K(==), V>(rows: seq<V>, key: V -> K) {
    forall i, j :: 0 <= i < j < |rows| ==> key(rows[i]) != key(rows[j])
  }

  lemma {:induction false} IndexByFacts<K, V>(rows: seq<V>, key: V -> K)
    ensures forall i :: 0 <= i < |rows| ==> key(rows[i]) in IndexBy(rows, key)
    ensures forall k :: k in IndexBy(rows, key) ==> IndexBy(rows, key)[k] in rows && key(IndexBy(rows, key)[k]) == k
    ensures KeysDiffer(rows, key) ==> forall i :: 0 <= i < |rows| ==> IndexBy(rows, key)[key(rows[i])] == rows[i]
  {
    if rows != [] {
      var front := rows[..|rows| - 1];
      IndexByFacts(front, key);
      assert forall i :: 0 <= i < |front| ==> rows[i] == front[i];
    }
  }

  lemma IndexGrows<K, V>(rows: seq<V>, key: V -> K, row: V)
    ensures IndexBy(rows + [row], key) == IndexBy(rows, key)[key(row) := row]
  {
    assert (rows + [row])[..|rows|] == rows;
  }
}

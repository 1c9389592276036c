/**
 The two java.util collection operations the manager relies on, over sequences:
 LinkedHashSet.add (an insertion-ordered set) and Collection.remove(Object),
 which drops the first element equal to its argument. Sequences keep the
 iteration order that both LinkedHashSet and ConcurrentLinkedQueue expose.
 */
module Collections {

  /** No element occurs twice: the shape of a java.util.Set's iteration order. */
  ghost predicate NoDuplicates<T>(s: seq<T>) {
    forall i, j :: 0 <= i < j < |s| ==> s[i] != s[j]
  }

  /** LinkedHashSet.add: an element already present changes nothing, a new one goes last. */
  function Insert<T(==)>(s: seq<T>, x: T): (r: seq<T>)
    ensures x in r
    ensures forall i :: 0 <= i < |r| ==> r[i] in s || r[i] == x
    ensures x in s ==> r == s
    ensures x !in s ==> r == s + [x]
    ensures |s| <= |r| && r[..|s|] == s
    ensures NoDuplicates(s) ==> NoDuplicates(r)
  {
    if x in s then s else s + [x]
  }

  /** Collection.remove(Object): drops the first element equal to x; without one, nothing changes. */
  function RemoveFirst<T(==)>(s: seq<T>, x: T): (r: seq<T>)
    ensures x !in s ==> r == s
    ensures x in s ==> |r| == |s| - 1
  {
    if s == [] then []
    else if s[0] == x then s[1..]
    else [s[0]] + RemoveFirst(s[1..], x)
  }

  /** Every element equal to x dropped, the others kept in order. */
  function Without<T(==)>(s: seq<T>, x: T): (r: seq<T>)
    ensures |r| <= |s|
    ensures x !in r
    ensures forall i :: 0 <= i < |s| && s[i] != x ==> s[i] in r
    ensures forall i :: 0 <= i < |r| ==> r[i] in s
  {
    if s == [] then []
    else (if s[0] == x then [] else [s[0]]) + Without(s[1..], x)
  }

  /** RemoveFirst on a sequence with a known first element. */
  lemma {:induction false} RemoveFirstCons<T>(y: T, s: seq<T>, x: T)
    ensures RemoveFirst([y] + s, x) == if y == x then s else [y] + RemoveFirst(s, x)
  {
  }

  /** Without on a sequence with a known first element. */
  lemma {:induction false} WithoutCons<T>(y: T, s: seq<T>, x: T)
    ensures Without([y] + s, x) == (if y == x then [] else [y]) + Without(s, x)
  {
  }

  /** RemoveFirst takes out exactly the element at the first index holding x. */
  lemma {:induction false} RemoveFirstAt<T>(s: seq<T>, x: T, i: nat)
    requires i < |s| && s[i] == x && x !in s[..i]
    ensures RemoveFirst(s, x) == s[..i] + s[i + 1..]
  {
    if i > 0 {
      assert s[0] != x by { assert s[0] == s[..i][0]; }
      assert s[1..][..i - 1] == s[1..i];
      assert x !in s[1..][..i - 1];
      RemoveFirstAt(s[1..], x, i - 1);
      assert s[..i] == [s[0]] + s[1..i];
      assert s[1..][i..] == s[i + 1..];
    }
  }

  /** Indexing into s with the element at i left out. */
  lemma {:induction false} DropAt<T>(s: seq<T>, i: nat, k: nat)
    requires i < |s| && k < |s| - 1
    ensures (s[..i] + s[i + 1..])[k] == s[if k < i then k else k + 1]
  {
  }

  /** Leaving out one element of a duplicate-free sequence keeps it duplicate-free and drops only that value. */
  lemma {:induction false} DropFromSet<T>(s: seq<T>, i: nat)
    requires NoDuplicates(s) && i < |s|
    ensures NoDuplicates(s[..i] + s[i + 1..])
    ensures s[i] !in s[..i] + s[i + 1..]
  {
    var r := s[..i] + s[i + 1..];
    forall a, b | 0 <= a < b < |r| ensures r[a] != r[b] {
      DropAt(s, i, a);
      DropAt(s, i, b);
    }
    forall k | 0 <= k < |r| ensures r[k] != s[i] {
      DropAt(s, i, k);
    }
  }

  /** On a duplicate-free sequence, RemoveFirst is set removal: x leaves, the rest stay, none repeats. */
  lemma {:induction false} RemoveFromSet<T>(s: seq<T>, x: T)
    requires NoDuplicates(s)
    ensures NoDuplicates(RemoveFirst(s, x))
    ensures x !in RemoveFirst(s, x)
    ensures forall i :: 0 <= i < |s| && s[i] != x ==> s[i] in RemoveFirst(s, x)
  {
    if x in s {
      var i :| 0 <= i < |s| && s[i] == x;
      assert x !in s[..i];
      RemoveFirstAt(s, x, i);
      DropFromSet(s, i);
      var r := s[..i] + s[i + 1..];
      forall k | 0 <= k < |s| && s[k] != x ensures s[k] in r {
        DropAt(s, i, if k < i then k else k - 1);
      }
    }
  }

  /** Adding a previously absent element and then removing it restores the original sequence. */
  lemma {:induction false} InsertThenRemove<T>(s: seq<T>, x: T)
    requires x !in s
    ensures RemoveFirst(Insert(s, x), x) == s
  {
    var t := s + [x];
    assert t[..|s|] == s;
    RemoveFirstAt(t, x, |s|);
    assert t[|s| + 1..] == [];
  }
}

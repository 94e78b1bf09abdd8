/** `list.sort(key=...)` on an integer key: an insertion sort, and what it
    guarantees (indexq.py:191). */
module Ordering {

  predicate SortedBy<T>(s: seq<T>, key: T -> int) {
    forall i, j :: 0 <= i < j < |s| ==> key(s[i]) <= key(s[j])
  }

  predicate NoDuplicates<T(==)>(s: seq<T>) {
    forall i, j :: 0 <= i < j < |s| ==> s[i] != s[j]
  }

  /** Puts `x` in front of the first element whose key is not smaller. */
  function Insert<T>(x: T, s: seq<T>, key: T -> int): seq<T> {
    if s == [] || key(x) <= key(s[0]) then [x] + s else [s[0]] + Insert(x, s[1..], key)
  }

  function SortBy<T>(s: seq<T>, key: T -> int): seq<T> {
    if s == [] then [] else Insert(s[0], SortBy(s[1..], key), key)
  }

  lemma {:induction false} InsertPermutes<T>(x: T, s: seq<T>, key: T -> int)
    ensures multiset(Insert(x, s, key)) == multiset(s) + multiset{x}
  {
    if s != [] && key(x) > key(s[0]) {
      InsertPermutes(x, s[1..], key);
      assert s == [s[0]] + s[1..];
    }
  }

  lemma {:induction false} InsertSorted<T>(x: T, s: seq<T>, key: T -> int)
    requires SortedBy(s, key)
    ensures SortedBy(Insert(x, s, key), key)
  {
    if s != [] && key(x) > key(s[0]) {
      InsertSorted(x, s[1..], key);
      InsertPermutes(x, s[1..], key);
      var r := Insert(x, s[1..], key);
      forall y | y in r ensures key(s[0]) <= key(y) {
        assert y in multiset(r);
        if y != x {
          assert y in multiset(s[1..]);
          var k :| 0 <= k < |s[1..]| && s[1..][k] == y;
          assert s[k + 1] == y;
        }
      }
      assert forall j :: 0 <= j < |r| ==> r[j] in r;
    }
  }

  /** The sort orders by key and keeps every element exactly as often as before. */
  lemma {:induction false} SortByCorrect<T>(s: seq<T>, key: T -> int)
    ensures SortedBy(SortBy(s, key), key)
    ensures multiset(SortBy(s, key)) == multiset(s)
  {
    if s != [] {
      SortByCorrect(s[1..], key);
      InsertSorted(s[0], SortBy(s[1..], key), key);
      InsertPermutes(s[0], SortBy(s[1..], key), key);
      assert s == [s[0]] + s[1..];
    }
  }

  lemma {:induction false} CountAtMostOnce<T>(s: seq<T>, x: T)
    requires NoDuplicates(s)
    ensures multiset(s)[x] <= 1
  {
    if s != [] {
      CountAtMostOnce(s[1..], x);
      assert s == [s[0]] + s[1..];
      if s[0] == x {
        assert x !in s[1..];
      }
    }
  }

  lemma RepeatedCountsTwice<T>(t: seq<T>, i: nat, j: nat)
    requires i < j < |t| && t[i] == t[j]
    ensures multiset(t)[t[i]] >= 2
  {
    assert t == t[..j] + [t[j]] + t[j + 1..];
    assert t[i] in t[..j];
  }

  /** A sequence without repetitions has none once its elements are rearranged. */
  lemma PermutationKeepsNoDuplicates<T>(s: seq<T>, t: seq<T>)
    requires multiset(s) == multiset(t) && NoDuplicates(s)
    ensures NoDuplicates(t)
  {
    forall i, j | 0 <= i < j < |t| ensures t[i] != t[j] {
      CountAtMostOnce(s, t[i]);
      if t[i] == t[j] {
        RepeatedCountsTwice(t, i, j);
      }
    }
  }

  /** Two duplicate-free sequences of the same elements, both sorted by a key that
      tells the elements apart, are the same sequence. */
  lemma {:induction false} SortedUnique<T>(s: seq<T>, t: seq<T>, key: T -> int)
    requires NoDuplicates(s) && NoDuplicates(t)
    requires forall x :: x in s <==> x in t
    requires SortedBy(s, key) && SortedBy(t, key)
    requires forall x, y :: x in s && y in s && key(x) == key(y) ==> x == y
    ensures s == t
    decreases |s|
  {
    if s == [] {
      assert forall i :: 0 <= i < |t| ==> t[i] in t;
    } else {
      assert s[0] in t;
      assert t[0] in s;
      var k :| 0 <= k < |s| && s[k] == t[0];
      var m :| 0 <= m < |t| && t[m] == s[0];
      assert key(s[0]) <= key(s[k]);
      assert key(t[0]) <= key(t[m]);
      assert s[0] == t[0];
      SameTails(s, t);
      SortedUnique(s[1..], t[1..], key);
      assert s == [s[0]] + s[1..];
      assert t == [t[0]] + t[1..];
    }
  }

  /** Dropping a shared, unrepeated first element leaves the same elements behind. */
  lemma SameTails<T>(s: seq<T>, t: seq<T>)
    requires s != [] && t != [] && s[0] == t[0]
    requires NoDuplicates(s) && NoDuplicates(t)
    requires forall x :: x in s <==> x in t
    ensures forall x :: x in s[1..] <==> x in t[1..]
  {
    forall x ensures x in s[1..] <==> x in t[1..] {
      if x in s[1..] {
        var i :| 0 <= i < |s[1..]| && s[1..][i] == x;
        assert s[i + 1] == x && x != s[0];
      }
      if x in t[1..] {
        var i :| 0 <= i < |t[1..]| && t[1..][i] == x;
        assert t[i + 1] == x && x != t[0];
      }
      assert x in s && x != s[0] ==> x in s[1..] by {
        if x in s && x != s[0] {
          var i :| 0 <= i < |s| && s[i] == x;
          assert s[1..][i - 1] == x;
        }
      }
      assert x in t && x != t[0] ==> x in t[1..] by {
        if x in t && x != t[0] {
          var i :| 0 <= i < |t| && t[i] == x;
          assert t[1..][i - 1] == x;
        }
      }
    }
  }
}

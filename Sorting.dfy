// `Array.prototype.sort` with a comparator `(a, b) => key(b) - key(a)`:
// the built-in sort is stable, so the result is the stable sort of the
// array by descending key. The in-place algorithm here is insertion sort,
// specified by a functional stable sort whose properties are proved below.
module Sorting {
  import opened Common

  /** Keys never increase along the sequence. */
  ghost predicate SortedDesc<T>(s: seq<T>, key: T -> int) {
    forall i, j :: 0 <= i < j < |s| ==> key(s[i]) >= key(s[j])
  }

  /** Places `x` after every element whose key is at least its own. */
  function Insert<T>(x: T, s: seq<T>, key: T -> int): (r: seq<T>)
    ensures multiset(r) == multiset(s) + multiset{x}
  {
    if s == [] then [x]
    else if key(s[0]) < key(x) then [x] + s
    else
      assert s == [s[0]] + s[1..];
      [s[0]] + Insert(x, s[1..], key)
  }

  /** The stable sort by descending key, one insertion at a time. */
  function SortDesc<T>(s: seq<T>, key: T -> int): (r: seq<T>)
    ensures multiset(r) == multiset(s)
  {
    if s == [] then []
    else
      assert s == s[..|s| - 1] + [s[|s| - 1]];
      Insert(s[|s| - 1], SortDesc(s[..|s| - 1], key), key)
  }

  lemma ConsSorted<T>(h: T, t: seq<T>, key: T -> int)
    requires SortedDesc(t, key)
    requires forall j :: 0 <= j < |t| ==> key(t[j]) <= key(h)
    ensures SortedDesc([h] + t, key)
  {
  }

  /** Every element of `Insert(x, s)` is `x` or an element of `s`. */
  lemma InsertBounded<T>(x: T, s: seq<T>, key: T -> int, b: int)
    requires key(x) <= b
    requires forall j :: 0 <= j < |s| ==> key(s[j]) <= b
    ensures forall j :: 0 <= j < |Insert(x, s, key)| ==> key(Insert(x, s, key)[j]) <= b
  {
    var r := Insert(x, s, key);
    forall j | 0 <= j < |r|
      ensures key(r[j]) <= b
    {
      assert r[j] in multiset(r);
      if r[j] != x {
        assert r[j] in multiset(s);
        var k :| 0 <= k < |s| && s[k] == r[j];
      }
    }
  }

  lemma {:induction false} InsertSorted<T>(x: T, s: seq<T>, key: T -> int)
    requires SortedDesc(s, key)
    ensures SortedDesc(Insert(x, s, key), key)
  {
    if s != [] && key(s[0]) >= key(x) {
      var tail := s[1..];
      InsertSorted(x, tail, key);
      InsertBounded(x, tail, key, key(s[0]));
      ConsSorted(s[0], Insert(x, tail, key), key);
    }
  }

  /** The result of the sort is ordered by descending key. */
  lemma {:induction false} SortDescIsSorted<T>(s: seq<T>, key: T -> int)
    ensures SortedDesc(SortDesc(s, key), key)
  {
    if s != [] {
      SortDescIsSorted(s[..|s| - 1], key);
      InsertSorted(s[|s| - 1], SortDesc(s[..|s| - 1], key), key);
    }
  }

  /** Selects the elements whose key is `k`. */
  function KeyIs<T>(key: T -> int, k: int): T -> bool {
    x => key(x) == k
  }

  /** A sorted sequence whose head is below `k` has no element of key `k`. */
  lemma {:induction false} NoneWithLargerKey<T>(s: seq<T>, key: T -> int, k: int)
    requires SortedDesc(s, key) && s != [] && key(s[0]) < k
    ensures Filter(s, KeyIs(key, k)) == []
  {
    if |s| > 1 {
      assert key(s[1]) <= key(s[0]);
      NoneWithLargerKey(s[1..], key, k);
    }
  }

  lemma {:induction false} InsertFrontKeepsTies<T>(x: T, s: seq<T>, key: T -> int, k: int)
    requires SortedDesc(s, key) && s != [] && key(s[0]) < key(x)
    ensures Filter(Insert(x, s, key), KeyIs(key, k)) == Filter(s, KeyIs(key, k)) + Filter([x], KeyIs(key, k))
  {
    FilterConcat([x], s, KeyIs(key, k));
    if key(x) == k {
      NoneWithLargerKey(s, key, k);
    }
  }

  /** Inserting adds `x` behind every element of its own key. */
  lemma {:induction false} InsertKeepsTies<T>(x: T, s: seq<T>, key: T -> int, k: int)
    requires SortedDesc(s, key)
    ensures Filter(Insert(x, s, key), KeyIs(key, k)) == Filter(s, KeyIs(key, k)) + Filter([x], KeyIs(key, k))
  {
    if s == [] {
    } else if key(s[0]) < key(x) {
      InsertFrontKeepsTies(x, s, key, k);
    } else {
      InsertKeepsTies(x, s[1..], key, k);
      assert s == [s[0]] + s[1..];
      FilterConsAppend(s[0], Insert(x, s[1..], key), s[1..], [x], KeyIs(key, k));
    }
  }

  /**
   * Stability: the elements of any one key appear in the result in the
   * same relative order as in the input.
   */
  lemma {:induction false} SortDescIsStable<T>(s: seq<T>, key: T -> int, k: int)
    ensures Filter(SortDesc(s, key), KeyIs(key, k)) == Filter(s, KeyIs(key, k))
  {
    if s != [] {
      var init, last := s[..|s| - 1], s[|s| - 1];
      var sorted := SortDesc(init, key);
      var p := KeyIs(key, k);
      calc {
        Filter(SortDesc(s, key), p);
        Filter(Insert(last, sorted, key), p);
        { SortDescIsSorted(init, key); InsertKeepsTies(last, sorted, key, k); }
        Filter(sorted, p) + Filter([last], p);
        { SortDescIsStable(init, key, k); }
        Filter(init, p) + Filter([last], p);
        { FilterConcat(init, [last], p); assert s == init + [last]; }
        Filter(s, p);
      }
    }
  }

  /**
   * Inserting `x` into a sorted sequence puts it at the first position
   * `j` whose element has a smaller key.
   */
  lemma {:induction false} InsertAt<T>(x: T, s: seq<T>, key: T -> int, j: nat)
    requires SortedDesc(s, key)
    requires j <= |s|
    requires j > 0 ==> key(s[j - 1]) >= key(x)
    requires forall k :: j <= k < |s| ==> key(s[k]) < key(x)
    ensures Insert(x, s, key) == s[..j] + [x] + s[j..]
  {
    if j > 0 {
      assert key(s[0]) >= key(x);
      InsertAt(x, s[1..], key, j - 1);
      assert s[1..][..j - 1] == s[1..j];
      assert s[..j] == [s[0]] + s[1..j];
    }
  }

  /** Sorting a sequence extended by one element inserts that element. */
  lemma SortDescSnoc<T>(s: seq<T>, i: nat, key: T -> int)
    requires i < |s|
    ensures SortDesc(s[..i + 1], key) == Insert(s[i], SortDesc(s[..i], key), key)
  {
    assert s[..i + 1][..i] == s[..i];
  }

  /** Read element by element, `t` is `s` with `x` placed at index `j`. */
  lemma Shifted<T>(t: seq<T>, s: seq<T>, x: T, j: nat)
    requires j <= |s| && |t| == |s| + 1
    requires forall k :: 0 <= k < j ==> t[k] == s[k]
    requires t[j] == x
    requires forall k :: j < k < |t| ==> t[k] == s[k - 1]
    ensures t == s[..j] + [x] + s[j..]
  {
  }

  /**
   * Opens a slot for `x` in `a[..i + 1]`: every element of `a[..i]` right
   * of the slot, back to the first one whose key is not smaller than
   * `x`'s, moves one place right. Returns the slot.
   */
  method OpenSlot<T>(a: array<T>, i: nat, x: T, key: T -> int) returns (j: nat)
    requires i < a.Length
    modifies a
    ensures j <= i
    ensures forall k :: 0 <= k < j ==> a[k] == old(a[k])
    ensures forall k :: j < k <= i ==> a[k] == old(a[k - 1])
    ensures forall k :: i < k < a.Length ==> a[k] == old(a[k])
    ensures forall k :: j <= k < i ==> key(old(a[k])) < key(x)
    ensures j > 0 ==> key(old(a[j - 1])) >= key(x)
  {
    j := i;
    while j > 0 && key(a[j - 1]) < key(x)
      invariant j <= i
      invariant forall k :: 0 <= k < j ==> a[k] == old(a[k])
      invariant forall k :: j < k <= i ==> a[k] == old(a[k - 1])
      invariant forall k :: i < k < a.Length ==> a[k] == old(a[k])
      invariant forall k :: j <= k < i ==> key(old(a[k])) < key(x)
    {
      a[j] := a[j - 1];
      j := j - 1;
    }
  }

  /**
   * One step of the in-place sort: the element at index `i` moves left
   * past every element of the sorted prefix `a[..i]` whose key is smaller.
   */
  method InsertLast<T>(a: array<T>, i: nat, key: T -> int)
    requires i < a.Length && SortedDesc(a[..i], key)
    modifies a
    ensures a[..i + 1] == Insert(old(a[i]), old(a[..i]), key)
    ensures forall k :: i < k < a.Length ==> a[k] == old(a[k])
  {
    ghost var sorted := a[..i];
    var x := a[i];
    var j := OpenSlot(a, i, x, key);
    a[j] := x;
    InsertAt(x, sorted, key, j);
    Shifted(a[..i + 1], sorted, x, j);
  }

  /** The in-place sort: afterwards the array holds `SortDesc` of its old contents. */
  method SortInPlace<T>(a: array<T>, key: T -> int)
    modifies a
    ensures a[..] == SortDesc(old(a[..]), key)
  {
    ghost var input := a[..];
    var i := 0;
    while i < a.Length
      invariant 0 <= i <= a.Length
      invariant a[..i] == SortDesc(input[..i], key)
      invariant forall k :: i <= k < a.Length ==> a[k] == input[k]
    {
      assert SortedDesc(a[..i], key) by {
        SortDescIsSorted(input[..i], key);
      }
      InsertLast(a, i, key);
      assert a[..i + 1] == SortDesc(input[..i + 1], key) by {
        SortDescSnoc(input, i, key);
      }
      i := i + 1;
    }
    assert a[..] == a[..a.Length];
    assert input[..a.Length] == input;
  }
}

/** The views' `data.sort((a, b) => key(b) - key(a))`: a stable sort into
    non-increasing key order, done in place on the response array.
    `SortDesc` is the stable result as a function of the input; the in-place
    method is proved to produce exactly it. */
module Sorting {

  ghost predicate SortedDesc<T>(s: seq<T>, key: T -> int)
  {
    forall i, j :: 0 <= i < j < |s| ==> key(s[i]) >= key(s[j])
  }

  /** Place `x` after every element whose key is at least its own. */
  function Insert<T>(x: T, s: seq<T>, key: T -> int): seq<T>
  {
    if s == [] then [x]
    else if key(s[0]) >= key(x) then [s[0]] + Insert(x, s[1..], key)
    else [x] + s
  }

  /** Inserting adds `x` and loses nothing. */
  lemma {:induction false} InsertPermutes<T>(x: T, s: seq<T>, key: T -> int)
    ensures |Insert(x, s, key)| == |s| + 1
    ensures multiset(Insert(x, s, key)) == multiset(s) + multiset{x}
    decreases |s|
  {
    if s != [] && key(s[0]) >= key(x) {
      assert s == [s[0]] + s[1..];
      InsertPermutes(x, s[1..], key);
    }
  }

  /** No key of the result exceeds a bound that `x` and all of `s` respect. */
  lemma {:induction false} InsertBounded<T>(x: T, s: seq<T>, key: T -> int, bound: int)
    requires key(x) <= bound
    requires forall i :: 0 <= i < |s| ==> key(s[i]) <= bound
    ensures forall i :: 0 <= i < |Insert(x, s, key)| ==> key(Insert(x, s, key)[i]) <= bound
    decreases |s|
  {
    if s != [] && key(s[0]) >= key(x) {
      InsertBounded(x, s[1..], key, bound);
      InsertPermutes(x, s[1..], key);
      var rest := Insert(x, s[1..], key);
      assert Insert(x, s, key) == [s[0]] + rest;
      forall i | 0 <= i < |rest| + 1 ensures key(([s[0]] + rest)[i]) <= bound {
        if i > 0 {
          assert ([s[0]] + rest)[i] == rest[i - 1];
        }
      }
    } else if s != [] {
      assert Insert(x, s, key) == [x] + s;
      forall i | 0 <= i < |s| + 1 ensures key(([x] + s)[i]) <= bound {
        if i > 0 {
          assert ([x] + s)[i] == s[i - 1];
        }
      }
    }
  }

  lemma {:induction false} InsertSorted<T>(x: T, s: seq<T>, key: T -> int)
    requires SortedDesc(s, key)
    ensures SortedDesc(Insert(x, s, key), key)
    decreases |s|
  {
    if s != [] {
      var tail := s[1..];
      SortedTail(s, key);
      if key(s[0]) >= key(x) {
        var rest := Insert(x, tail, key);
        InsertSorted(x, tail, key);
        InsertPermutes(x, tail, key);
        forall i | 0 <= i < |tail| ensures key(tail[i]) <= key(s[0]) {
          assert tail[i] == s[i + 1];
        }
        InsertBounded(x, tail, key, key(s[0]));
        var r := Insert(x, s, key);
        assert r == [s[0]] + rest;
        forall i, j | 0 <= i < j < |r| ensures key(r[i]) >= key(r[j]) {
          if i > 0 {
            assert r[i] == rest[i - 1] && r[j] == rest[j - 1];
          } else {
            assert r[j] == rest[j - 1];
          }
        }
      } else {
        InsertFrontSorted(x, s, key);
      }
    }
  }

  /** `x` goes in front of a sorted list whose first key is below its own. */
  lemma InsertFrontSorted<T>(x: T, s: seq<T>, key: T -> int)
    requires SortedDesc(s, key) && s != [] && key(s[0]) < key(x)
    ensures SortedDesc(Insert(x, s, key), key)
  {
    var r := Insert(x, s, key);
    assert r == [x] + s;
    forall k | 0 <= k < |s| ensures key(s[k]) < key(x) {
      if k > 0 {
        assert key(s[0]) >= key(s[k]);
      }
    }
    forall i, j | 0 <= i < j < |r| ensures key(r[i]) >= key(r[j]) {
      assert r[j] == s[j - 1];
      if i > 0 {
        assert r[i] == s[i - 1];
      }
    }
  }

  /** Insert the elements one by one, in their original order. */
  function SortDesc<T>(s: seq<T>, key: T -> int): seq<T>
  {
    if s == [] then []
    else Insert(s[|s| - 1], SortDesc(s[..|s| - 1], key), key)
  }

  /** The sort rearranges its input into non-increasing key order. */
  lemma {:induction false} SortDescSorts<T>(s: seq<T>, key: T -> int)
    ensures |SortDesc(s, key)| == |s|
    ensures multiset(SortDesc(s, key)) == multiset(s)
    ensures SortedDesc(SortDesc(s, key), key)
    decreases |s|
  {
    if s != [] {
      var init, x := s[..|s| - 1], s[|s| - 1];
      assert s == init + [x];
      SortDescSorts(init, key);
      InsertPermutes(x, SortDesc(init, key), key);
      InsertSorted(x, SortDesc(init, key), key);
    }
  }

  /** Where the in-place loop puts `x`: after the prefix whose keys are at
      least `key(x)`, before the rest. */
  lemma {:induction false} InsertAt<T>(x: T, s: seq<T>, key: T -> int, j: nat)
    requires SortedDesc(s, key)
    requires j <= |s|
    requires j == 0 || key(s[j - 1]) >= key(x)
    requires forall k :: j <= k < |s| ==> key(s[k]) < key(x)
    ensures Insert(x, s, key) == s[..j] + [x] + s[j..]
    decreases j
  {
    if j == 0 {
      if s != [] {
        assert key(s[0]) < key(x);
        assert Insert(x, s, key) == [x] + s;
      }
      assert s[..0] + [x] + s[0..] == [x] + s;
    } else {
      var tail := s[1..];
      SortedTail(s, key);
      assert key(s[0]) >= key(s[j - 1]);
      assert Insert(x, s, key) == [s[0]] + Insert(x, tail, key);
      assert j - 1 == 0 || tail[j - 2] == s[j - 1];
      forall k | j - 1 <= k < |tail| ensures key(tail[k]) < key(x) {
        assert tail[k] == s[k + 1];
      }
      InsertAt(x, tail, key, j - 1);
      assert s == [s[0]] + tail;
      ConsSplit(s[0], tail, x, j - 1);
    }
  }

  /** Putting `h` in front of a split sequence moves the split one place. */
  lemma ConsSplit<T>(h: T, tail: seq<T>, x: T, m: nat)
    requires m <= |tail|
    ensures [h] + (tail[..m] + [x] + tail[m..]) == ([h] + tail)[..m + 1] + [x] + ([h] + tail)[m + 1..]
  {
    var s := [h] + tail;
    assert s[..m + 1] == [h] + tail[..m];
    assert s[m + 1..] == tail[m..];
  }

  /** Stability: among the elements with any one key, the sort keeps their
      original relative order. */
  lemma {:induction false} SortDescIsStable<T>(s: seq<T>, key: T -> int, k: int)
    ensures WithKey(SortDesc(s, key), key, k) == WithKey(s, key, k)
    decreases |s|
  {
    if s != [] {
      var init, x := s[..|s| - 1], s[|s| - 1];
      assert s == init + [x];
      SortDescIsStable(init, key, k);
      SortDescSorts(init, key);
      InsertWithKey(x, SortDesc(init, key), key, k);
      WithKeyAppend(init, [x], key, k);
    }
  }

  /** The elements with key `k`, in their order in `s`. */
  function WithKey<T>(s: seq<T>, key: T -> int, k: int): seq<T>
  {
    if s == [] then []
    else if key(s[0]) == k then [s[0]] + WithKey(s[1..], key, k)
    else WithKey(s[1..], key, k)
  }

  lemma {:induction false} WithKeyAppend<T>(a: seq<T>, b: seq<T>, key: T -> int, k: int)
    ensures WithKey(a + b, key, k) == WithKey(a, key, k) + WithKey(b, key, k)
    decreases |a|
  {
    if a == [] {
      assert a + b == b;
    } else {
      var ab := a + b;
      assert ab[0] == a[0] && ab[1..] == a[1..] + b;
      WithKeyAppend(a[1..], b, key, k);
      if key(a[0]) == k {
        calc {
          WithKey(ab, key, k);
          [a[0]] + WithKey(a[1..] + b, key, k);
          [a[0]] + (WithKey(a[1..], key, k) + WithKey(b, key, k));
          ([a[0]] + WithKey(a[1..], key, k)) + WithKey(b, key, k);
        }
      }
    }
  }

  /** An inserted element lands after every element with the same key. */
  lemma {:induction false} InsertWithKey<T>(x: T, s: seq<T>, key: T -> int, k: int)
    requires SortedDesc(s, key)
    ensures WithKey(Insert(x, s, key), key, k) == WithKey(s, key, k) + WithKey([x], key, k)
    decreases |s|
  {
    if s == [] {
    } else if key(s[0]) >= key(x) {
      var tail := s[1..];
      var rest := Insert(x, tail, key);
      SortedTail(s, key);
      InsertWithKey(x, tail, key, k);
      assert Insert(x, s, key) == [s[0]] + rest;
      assert s == [s[0]] + tail;
      WithKeyAppend([s[0]], rest, key, k);
      WithKeyAppend([s[0]], tail, key, k);
    } else {
      assert Insert(x, s, key) == [x] + s;
      WithKeyAppend([x], s, key, k);
      if key(x) == k {
        assert forall i :: 0 <= i < |s| ==> key(s[i]) <= key(s[0]) < k;
        NoneWithKey(s, key, k);
      } else {
        assert WithKey([x], key, k) == [];
      }
    }
  }

  lemma SortedTail<T>(s: seq<T>, key: T -> int)
    requires s != [] && SortedDesc(s, key)
    ensures SortedDesc(s[1..], key)
  {
    var tail := s[1..];
    forall i, j | 0 <= i < j < |tail| ensures key(tail[i]) >= key(tail[j]) {
      assert tail[i] == s[i + 1] && tail[j] == s[j + 1];
    }
  }

  lemma {:induction false} NoneWithKey<T>(s: seq<T>, key: T -> int, k: int)
    requires forall i :: 0 <= i < |s| ==> key(s[i]) != k
    ensures WithKey(s, key, k) == []
    decreases |s|
  {
    if s != [] {
      NoneWithKey(s[1..], key, k);
    }
  }

  /** One outer step of the in-place sort, stated on the array's contents
      before and after the insertion. */
  lemma SortStep<T>(input: seq<T>, before: seq<T>, after: seq<T>, i: nat, key: T -> int)
    requires i < |input| == |before| == |after|
    requires before[..i] == SortDesc(input[..i], key) && before[i..] == input[i..]
    requires after[..i + 1] == Insert(before[i], before[..i], key)
    requires after[i + 1..] == before[i + 1..]
    ensures after[..i + 1] == SortDesc(input[..i + 1], key)
    ensures after[i + 1..] == input[i + 1..]
  {
    var prefix := input[..i + 1];
    assert prefix[..|prefix| - 1] == input[..i] && prefix[|prefix| - 1] == input[i];
    assert before[i] == before[i..][0] == input[i..][0] == input[i];
    assert before[i + 1..] == before[i..][1..] == input[i..][1..] == input[i + 1..];
  }

  /** Insertion sort on the array itself, as `Array.prototype.sort` leaves
      the response array reordered. */
  method SortInPlace<T>(a: array<T>, key: T -> int)
    modifies a
    ensures a[..] == SortDesc(old(a[..]), key)
  {
    ghost var input := a[..];
    var i := 0;
    while i < a.Length
      invariant 0 <= i <= a.Length
      invariant a[..i] == SortDesc(input[..i], key)
      invariant a[i..] == input[i..]
    {
      SortNext(a, i, key, input);
      i := i + 1;
    }
    assert input[..a.Length] == input && a[..a.Length] == a[..];
  }

  /** The outer loop's body: after it one more element of the input is
      sorted into the prefix. */
  method SortNext<T>(a: array<T>, i: nat, key: T -> int, ghost input: seq<T>)
    requires i < a.Length == |input|
    requires a[..i] == SortDesc(input[..i], key) && a[i..] == input[i..]
    modifies a
    ensures a[..i + 1] == SortDesc(input[..i + 1], key) && a[i + 1..] == input[i + 1..]
  {
    ghost var before := a[..];
    SortDescSorts(input[..i], key);
    InsertNext(a, i, key);
    SortStep(input, before, a[..], i, key);
  }

  /** One step of the insertion sort: move `a[i]` into the sorted prefix
      `a[..i]`, shifting the elements with smaller keys one place right. */
  method InsertNext<T>(a: array<T>, i: nat, key: T -> int)
    requires i < a.Length
    requires SortedDesc(a[..i], key)
    modifies a
    ensures a[..i + 1] == Insert(old(a[i]), old(a[..i]), key)
    ensures a[i + 1..] == old(a[i + 1..])
  {
    ghost var sorted := a[..i];
    var x := a[i];
    var j := ShiftUp(a, i, key);
    a[j] := x;
    InsertAt(x, sorted, key, j);
    Assemble(a[..], sorted, x, j, i);
  }

  /** Move every element of `a[..i]` whose key is below that of `a[i]` one
      place up, from the top down, and return the gap left below them. */
  method ShiftUp<T>(a: array<T>, i: nat, key: T -> int) returns (j: nat)
    requires i < a.Length
    modifies a
    ensures j <= i
    ensures j == 0 || key(old(a[j - 1])) >= key(old(a[i]))
    ensures forall k :: 0 <= k < j ==> a[k] == old(a[k])
    ensures forall k :: j < k <= i ==> a[k] == old(a[k - 1])
    ensures forall k :: j <= k < i ==> key(old(a[k])) < key(old(a[i]))
    ensures forall k :: i < k < a.Length ==> a[k] == old(a[k])
  {
    var x := a[i];
    j := i;
    while j > 0 && key(a[j - 1]) < key(x)
      invariant 0 <= j <= i
      invariant forall k :: 0 <= k < j ==> a[k] == old(a[k])
      invariant forall k :: j < k <= i ==> a[k] == old(a[k - 1])
      invariant forall k :: j <= k < i ==> key(old(a[k])) < key(x)
      invariant forall k :: i < k < a.Length ==> a[k] == old(a[k])
    {
      a[j] := a[j - 1];
      j := j - 1;
    }
  }

  lemma Assemble<T>(arr: seq<T>, sorted: seq<T>, x: T, j: nat, i: nat)
    requires j <= i < |arr| && |sorted| == i
    requires forall k :: 0 <= k < j ==> arr[k] == sorted[k]
    requires arr[j] == x
    requires forall k :: j < k <= i ==> arr[k] == sorted[k - 1]
    ensures arr[..i + 1] == sorted[..j] + [x] + sorted[j..]
  {
    var expected := sorted[..j] + [x] + sorted[j..];
    assert |expected| == i + 1;
    forall k | 0 <= k <= i ensures arr[k] == expected[k] {
      if k < j {
        assert expected[k] == sorted[k];
      } else if k == j {
        assert expected[k] == x;
      } else {
        assert expected[k] == sorted[k - 1];
      }
    }
  }
}

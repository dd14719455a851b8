/** The in-place `array.sort((a, b) => a.name.localeCompare(b.name))` of the
    field tools. The sort of the JavaScript runtime is stable, so its result is
    fully determined: `StableSort` below, insertion sort stated as a function,
    is that result, and `SortInPlace` computes it in place on an array. */
module Sorting {
  import opened Text

  /** No element is strictly smaller, by `key`, than an element before it. */
  ghost predicate SortedBy<T>(s: seq<T>, key: T -> string) {
    forall i, j :: 0 <= i < j < |s| ==> !Less(key(s[j]), key(s[i]))
  }

  /** Inserts `x` after the last element of `t` whose key is not greater than
      the key of `x`. */
  function InsertLast<T>(t: seq<T>, x: T, key: T -> string): seq<T>
    decreases |t|
  {
    if t == [] then [x]
    else if Less(key(x), key(t[|t| - 1])) then InsertLast(t[..|t| - 1], x, key) + [t[|t| - 1]]
    else t + [x]
  }

  /** Stable sort by `key`: insertion sort, left to right. */
  function StableSort<T>(s: seq<T>, key: T -> string): seq<T>
    decreases |s|
  {
    if s == [] then [] else InsertLast(StableSort(s[..|s| - 1], key), s[|s| - 1], key)
  }

  lemma {:induction false} InsertLastPermutes<T>(t: seq<T>, x: T, key: T -> string)
    ensures multiset(InsertLast(t, x, key)) == multiset(t) + multiset{x}
    decreases |t|
  {
    if t != [] && Less(key(x), key(t[|t| - 1])) {
      InsertLastPermutes(t[..|t| - 1], x, key);
      assert t == t[..|t| - 1] + [t[|t| - 1]];
    }
  }

  lemma {:induction false} InsertLastSorted<T>(t: seq<T>, x: T, key: T -> string)
    requires SortedBy(t, key)
    ensures SortedBy(InsertLast(t, x, key), key)
    decreases |t|
  {
    if t == [] {
    } else {
      var last := t[|t| - 1];
      var init := t[..|t| - 1];
      if Less(key(x), key(last)) {
        InsertLastSorted(init, x, key);
        var u := InsertLast(init, x, key);
        InsertLastPermutes(init, x, key);
        forall e | e in u ensures !Less(key(last), key(e)) {
          assert e in multiset(u);
          if e == x {
            LessAsymmetric(key(x), key(last));
          } else {
            assert e in multiset(init);
            var k :| 0 <= k < |init| && init[k] == e;
            assert t[k] == e;
          }
        }
        var r := u + [last];
        forall i, j | 0 <= i < j < |r| ensures !Less(key(r[j]), key(r[i])) {
          if j == |r| - 1 {
            assert r[i] in u;
          }
        }
      } else {
        var r := t + [x];
        forall i, j | 0 <= i < j < |r| ensures !Less(key(r[j]), key(r[i])) {
          if j == |r| - 1 && i < |t| - 1 {
            // key(t[i]) <= key(last) <= key(x)
            if Less(key(x), key(t[i])) {
              if key(t[i]) == key(last) {
              } else {
                LessTotal(key(t[i]), key(last));
                LessTransitive(key(x), key(t[i]), key(last));
              }
            }
          }
        }
      }
    }
  }

  /** The sort result is ordered by `key` and is a permutation of its input. */
  lemma {:induction false} StableSortCorrect<T>(s: seq<T>, key: T -> string)
    ensures SortedBy(StableSort(s, key), key)
    ensures multiset(StableSort(s, key)) == multiset(s)
    decreases |s|
  {
    if s != [] {
      StableSortCorrect(s[..|s| - 1], key);
      InsertLastSorted(StableSort(s[..|s| - 1], key), s[|s| - 1], key);
      InsertLastPermutes(StableSort(s[..|s| - 1], key), s[|s| - 1], key);
      assert s == s[..|s| - 1] + [s[|s| - 1]];
    }
  }

  /** Sorting keeps the length. */
  lemma StableSortLength<T>(s: seq<T>, key: T -> string)
    ensures |StableSort(s, key)| == |s|
  {
    StableSortCorrect(s, key);
    assert |multiset(StableSort(s, key))| == |multiset(s)|;
  }

  /** Inserting `x` lands it at position `j` when every element from `j` on
      is larger than `x` and the one before `j` is not: the elements before
      `j` stay, and the ones from `j` on move one place right. */
  lemma {:induction false} InsertLastAt<T>(t: seq<T>, x: T, key: T -> string, j: nat)
    requires j <= |t|
    requires forall k :: j <= k < |t| ==> Less(key(x), key(t[k]))
    requires j == 0 || !Less(key(x), key(t[j - 1]))
    ensures |InsertLast(t, x, key)| == |t| + 1
    ensures forall k :: 0 <= k < j ==> InsertLast(t, x, key)[k] == t[k]
    ensures InsertLast(t, x, key)[j] == x
    ensures forall k :: j < k <= |t| ==> InsertLast(t, x, key)[k] == t[k - 1]
    decreases |t|
  {
    if j < |t| {
      var n := |t| - 1;
      var u := t[..n];
      assert Less(key(x), key(t[n]));
      assert forall k :: j <= k < n ==> Less(key(x), key(u[k])) by {
        forall k | j <= k < n ensures u[k] == t[k] { }
      }
      assert j > 0 ==> u[j - 1] == t[j - 1];
      InsertLastAt(u, x, key, j);
    }
  }

  /** One insertion step: moves `a[i]` left past the larger elements of the
      sorted prefix `a[..i]`. */
  method InsertAt<T>(a: array<T>, i: nat, key: T -> string)
    requires i < a.Length
    modifies a
    ensures a[..i + 1] == InsertLast(old(a[..i]), old(a[i]), key)
    ensures a[i + 1..] == old(a[i + 1..])
  {
    var x := a[i];
    ghost var t := a[..i];
    var j := i;
    while j > 0 && Less(key(x), key(a[j - 1]))
      invariant 0 <= j <= i
      invariant forall k :: 0 <= k < j ==> a[k] == t[k]
      invariant forall k :: j < k <= i ==> a[k] == t[k - 1]
      invariant forall k :: i < k < a.Length ==> a[k] == old(a[k])
      invariant forall k :: j <= k < i ==> Less(key(x), key(t[k]))
    {
      a[j] := a[j - 1];
      j := j - 1;
    }
    a[j] := x;
    InsertLastAt(t, x, key, j);
    ghost var r := InsertLast(t, x, key);
    assert a[..i + 1] == r by {
      forall k | 0 <= k <= i ensures a[k] == r[k] { }
    }
  }

  /** Sorts `a` in place by `key`, as the runtime's stable sort does. */
  method SortInPlace<T>(a: array<T>, key: T -> string)
    modifies a
    ensures a[..] == StableSort(old(a[..]), key)
  {
    ghost var orig := a[..];
    var i := 0;
    while i < a.Length
      invariant 0 <= i <= a.Length
      invariant a[..i] == StableSort(orig[..i], key)
      invariant a[i..] == orig[i..]
    {
      ghost var before := a[..];
      InsertAt(a, i, key);
      assert before[..i] == StableSort(orig[..i], key);
      assert before[i] == orig[i];
      assert orig[..i + 1][..i] == orig[..i];
      assert a[i + 1..] == orig[i + 1..];
      i := i + 1;
    }
    assert a[..] == a[..a.Length];
    assert orig[..a.Length] == orig;
  }
}

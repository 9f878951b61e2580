/**
 * The reference meaning of `Array.prototype.sort` with a comparator, which
 * ECMAScript requires to be stable: a stable insertion sort. `le(a, b)` holds
 * when the comparator returns a value <= 0 for `(a, b)`, that is, when a stable
 * sort may leave `a` in front of `b`.
 */
module Sorting {
  import opened Text

  /** What a consistent comparator gives: every two elements are comparable
      and the order is transitive. */
  ghost predicate TotalPreorder<T(!new)>(le: (T, T) -> bool) {
    && (forall a, b :: le(a, b) || le(b, a))
    && (forall a, b, c :: le(a, b) && le(b, c) ==> le(a, c))
  }

  ghost predicate Sorted<T>(s: seq<T>, le: (T, T) -> bool) {
    forall i, j :: 0 <= i < j < |s| ==> le(s[i], s[j])
  }

  /** Neither element has to go before the other: the comparator returns 0. */
  predicate Tied<T>(a: T, b: T, le: (T, T) -> bool) {
    le(a, b) && le(b, a)
  }

  /** Puts `x` behind every element of `t` that may precede it. */
  function Insert<T>(t: seq<T>, x: T, le: (T, T) -> bool): (r: seq<T>)
    ensures |r| == |t| + 1
    ensures multiset(r) == multiset(t) + multiset{x}
  {
    if t == [] || le(t[|t| - 1], x) then t + [x]
    else
      assert t == t[..|t| - 1] + [t[|t| - 1]];
      Insert(t[..|t| - 1], x, le) + [t[|t| - 1]]
  }

  /** The stable sort of `s` under `le`. */
  function Sort<T>(s: seq<T>, le: (T, T) -> bool): (r: seq<T>)
    ensures |r| == |s|
    ensures multiset(r) == multiset(s)
  {
    if s == [] then []
    else
      assert s == s[..|s| - 1] + [s[|s| - 1]];
      Insert(Sort(s[..|s| - 1], le), s[|s| - 1], le)
  }

  /** The elements of `s` tied with `x`, in their order in `s`. */
  function TiedWith<T>(s: seq<T>, x: T, le: (T, T) -> bool): seq<T>
  {
    if s == [] then []
    else TiedWith(s[..|s| - 1], x, le) + (if Tied(s[|s| - 1], x, le) then [s[|s| - 1]] else [])
  }

  lemma InMultiset<T>(s: seq<T>, i: nat)
    requires i < |s|
    ensures s[i] in multiset(s)
  {
  }

  lemma {:induction false} InsertSorted<T(!new)>(t: seq<T>, x: T, le: (T, T) -> bool)
    requires TotalPreorder(le) && Sorted(t, le)
    ensures Sorted(Insert(t, x, le), le)
  {
    var r := Insert(t, x, le);
    if t == [] || le(t[|t| - 1], x) {
      forall i, j | 0 <= i < j < |r| ensures le(r[i], r[j]) {
        if j == |t| && i < |t| - 1 {
          assert le(t[i], t[|t| - 1]);
        }
      }
    } else {
      var last := t[|t| - 1];
      var init := t[..|t| - 1];
      var r' := Insert(init, x, le);
      assert Sorted(init, le);
      InsertSorted(init, x, le);
      assert le(x, last);
      forall i, j | 0 <= i < j < |r| ensures le(r[i], r[j]) {
        if j == |r| - 1 {
          InMultiset(r', i);
          assert r'[i] == x || r'[i] in multiset(init);
          if r'[i] != x {
            var k :| 0 <= k < |init| && init[k] == r'[i];
            assert le(t[k], last);
          }
        } else {
          assert r[i] == r'[i] && r[j] == r'[j];
        }
      }
    }
  }

  /** The stable sort puts its result in order. */
  lemma {:induction false} SortSorted<T(!new)>(s: seq<T>, le: (T, T) -> bool)
    requires TotalPreorder(le)
    ensures Sorted(Sort(s, le), le)
  {
    if s != [] {
      SortSorted(s[..|s| - 1], le);
      InsertSorted(Sort(s[..|s| - 1], le), s[|s| - 1], le);
    }
  }

  lemma TiedWithSnoc<T>(s: seq<T>, z: T, x: T, le: (T, T) -> bool)
    ensures TiedWith(s + [z], x, le) == TiedWith(s, x, le) + (if Tied(z, x, le) then [z] else [])
  {
    assert (s + [z])[..|s|] == s;
  }

  lemma {:induction false} InsertTiedWith<T(!new)>(t: seq<T>, y: T, x: T, le: (T, T) -> bool)
    requires TotalPreorder(le) && Sorted(t, le)
    ensures TiedWith(Insert(t, y, le), x, le) == TiedWith(t, x, le) + (if Tied(y, x, le) then [y] else [])
  {
    if t == [] || le(t[|t| - 1], y) {
      TiedWithSnoc(t, y, x, le);
    } else {
      var last := t[|t| - 1];
      var init := t[..|t| - 1];
      assert Sorted(init, le);
      assert t == init + [last];
      InsertTiedWith(init, y, x, le);
      TiedWithSnoc(Insert(init, y, le), last, x, le);
      TiedWithSnoc(init, last, x, le);
      // A `y` that had to go in front of `last` cannot be tied with `x` when `last` is.
      assert !(Tied(y, x, le) && Tied(last, x, le));
    }
  }

  /** Stability: the elements tied with any `x` keep their relative order. */
  lemma {:induction false} SortStable<T(!new)>(s: seq<T>, x: T, le: (T, T) -> bool)
    requires TotalPreorder(le)
    ensures TiedWith(Sort(s, le), x, le) == TiedWith(s, x, le)
  {
    if s != [] {
      var init := s[..|s| - 1];
      SortStable(init, x, le);
      SortSorted(init, le);
      InsertTiedWith(Sort(init, le), s[|s| - 1], x, le);
    }
  }

  lemma {:induction false} DistinctMultiplicity<T>(s: seq<T>)
    requires Distinct(s)
    ensures forall x :: multiset(s)[x] <= 1
  {
    if s != [] {
      var init := s[..|s| - 1];
      assert s == init + [s[|s| - 1]];
      assert Distinct(init);
      DistinctMultiplicity(init);
      assert s[|s| - 1] !in init;
    }
  }

  /** Reordering a list without duplicates leaves it without duplicates. */
  lemma PermutationDistinct<T>(a: seq<T>, b: seq<T>)
    requires multiset(a) == multiset(b) && Distinct(a)
    ensures Distinct(b)
  {
    DistinctMultiplicity(a);
    forall i, j | 0 <= i < j < |b| ensures b[i] != b[j] {
      RepeatedTwice(b, i, j);
    }
  }

  lemma RepeatedTwice<T>(b: seq<T>, i: nat, j: nat)
    requires i < j < |b|
    ensures b[i] == b[j] ==> multiset(b)[b[i]] >= 2
  {
    assert b == b[..j] + b[j..];
    assert b[i] in multiset(b[..j]) && b[j] in multiset(b[j..]);
  }

  /** Splitting before and after dropping the last element agree. */
  lemma SnocSplit<T>(t: seq<T>, j: nat, x: T)
    requires j < |t|
    ensures t[..|t| - 1][..j] + [x] + t[..|t| - 1][j..] + [t[|t| - 1]] == t[..j] + [x] + t[j..]
  {
    var init := t[..|t| - 1];
    assert init[..j] == t[..j];
    assert init[j..] + [t[|t| - 1]] == t[j..];
  }

  /** A run whose elements are those of `t` with `x` put in at position `j`. */
  lemma ShiftedRun<T>(c: seq<T>, t: seq<T>, j: nat, x: T)
    requires j <= |t| && |c| == |t| + 1
    requires forall k :: 0 <= k < j ==> c[k] == t[k]
    requires c[j] == x
    requires forall k :: j < k < |c| ==> c[k] == t[k - 1]
    ensures c == t[..j] + [x] + t[j..]
  {
    var r := t[..j] + [x] + t[j..];
    assert forall k :: 0 <= k < |c| ==> c[k] == r[k];
  }

  /** An element inserted into a run lands after the last element that may
      precede it when every later element may not. */
  lemma {:induction false} InsertSplit<T>(t: seq<T>, j: nat, x: T, le: (T, T) -> bool)
    requires j <= |t|
    requires j == 0 || le(t[j - 1], x)
    requires forall k :: j <= k < |t| ==> !le(t[k], x)
    ensures Insert(t, x, le) == t[..j] + [x] + t[j..]
  {
    if j == |t| {
      assert t[..j] == t && t[j..] == [];
    } else {
      var init, last := t[..|t| - 1], t[|t| - 1];
      assert !le(last, x);
      InsertSplit(init, j, x, le);
      SnocSplit(t, j, x);
    }
  }

  /** The run `c` the insertion step leaves in the first `i + 1` places is the
      sorted insertion of `b[i]` into `b[..i]`. */
  lemma InsertStep<T>(b: seq<T>, c: seq<T>, i: nat, j: nat, le: (T, T) -> bool)
    requires j <= i < |b| && |c| == i + 1
    requires forall k :: 0 <= k < j ==> c[k] == b[k]
    requires c[j] == b[i]
    requires forall k :: j < k <= i ==> c[k] == b[k - 1]
    requires j == 0 || le(b[j - 1], b[i])
    requires forall k :: j <= k < i ==> !le(b[k], b[i])
    ensures c == Insert(b[..i], b[i], le)
  {
    var t := b[..i];
    ShiftedRun(c, t, j, b[i]);
    InsertSplit(t, j, b[i], le);
  }

  /** Moves `a[i]` left past the elements before it that may not precede it,
      and returns where it lands. */
  method InsertAt<T>(a: array<T>, i: int, le: (T, T) -> bool) returns (j: int)
    modifies a
    requires 0 <= i < a.Length
    ensures 0 <= j <= i
    ensures forall k :: 0 <= k < j ==> a[k] == old(a[k])
    ensures a[j] == old(a[i])
    ensures forall k :: j < k <= i ==> a[k] == old(a[k - 1])
    ensures forall k :: i < k < a.Length ==> a[k] == old(a[k])
    ensures j == 0 || le(old(a[j - 1]), old(a[i]))
    ensures forall k :: j <= k < i ==> !le(old(a[k]), old(a[i]))
  {
    var x := a[i];
    j := i;
    while j > 0 && !le(a[j - 1], x)
      invariant 0 <= j <= i
      invariant forall k :: 0 <= k < j ==> a[k] == old(a[k])
      invariant forall k :: j < k <= i ==> a[k] == old(a[k - 1])
      invariant forall k :: i < k < a.Length ==> a[k] == old(a[k])
      invariant forall k :: j <= k < i ==> !le(old(a[k]), x)
    {
      a[j] := a[j - 1];
      j := j - 1;
    }
    a[j] := x;
  }

  /** Sorting one more element of a sequence inserts it into the sorted prefix. */
  lemma SortPrefix<T>(s: seq<T>, i: nat, le: (T, T) -> bool)
    requires i < |s|
    ensures Sort(s[..i + 1], le) == Insert(Sort(s[..i], le), s[i], le)
  {
    assert s[..i + 1][..i] == s[..i];
  }

  /** `Array.prototype.sort` on an array: an in-place stable insertion sort
      that leaves the array as `Sort` orders it. */
  method SortInPlace<T>(a: array<T>, le: (T, T) -> bool)
    modifies a
    ensures a[..] == Sort(old(a[..]), le)
  {
    ghost var s := a[..];
    var i := 0;
    while i < a.Length
      invariant 0 <= i <= a.Length
      invariant a[..i] == Sort(s[..i], le)
      invariant forall k :: i <= k < a.Length ==> a[k] == s[k]
    {
      ghost var b := a[..];
      var j := InsertAt(a, i, le);
      InsertStep(b, a[..i + 1], i, j, le);
      assert b[..i] == Sort(s[..i], le) && b[i] == s[i];
      SortPrefix(s, i, le);
      i := i + 1;
    }
    assert a[..] == a[..a.Length] && s == s[..a.Length];
  }

  /** `.sort` called on an array the caller has just built from `s`: the
      elements go into a new array, which is sorted in place. */
  method SortFresh<T>(s: seq<T>, le: (T, T) -> bool) returns (r: seq<T>)
    ensures r == Sort(s, le)
  {
    var a := new T[|s|](k requires 0 <= k < |s| => s[k]);
    assert a[..] == s;
    SortInPlace(a, le);
    r := a[..];
  }
}

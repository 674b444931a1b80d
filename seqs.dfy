/**
  The two array operations the editor and the collection cache rely on:
  `Array.prototype.filter` and `Array.prototype.splice(start, 1)`, each
  characterised element by element.
*/
module Seqs {

  /** The elements of `s` that satisfy `keep`, in their original order. */
  function Filter<T(!new)>(s: seq<T>, keep: T -> bool): (r: seq<T>)
    ensures |r| <= |s|
  {
    if s == [] then []
    else (if keep(s[0]) then [s[0]] else []) + Filter(s[1..], keep)
  }

  /** An element is in the filtered sequence exactly when it is in the
      original and satisfies `keep`. */
  lemma {:induction false} FilterMembers<T(!new)>(s: seq<T>, keep: T -> bool)
    ensures forall x :: x in Filter(s, keep) <==> x in s && keep(x)
  {
    if s != [] {
      FilterMembers(s[1..], keep);
      assert s == [s[0]] + s[1..];
    }
  }

  /** Filtering keeps every copy of a kept element and no copy of another. */
  lemma {:induction false} FilterCounts<T(!new)>(s: seq<T>, keep: T -> bool, x: T)
    ensures multiset(Filter(s, keep))[x] == if keep(x) then multiset(s)[x] else 0
  {
    if s != [] {
      FilterCounts(s[1..], keep, x);
      assert s == [s[0]] + s[1..];
      assert multiset(s) == multiset([s[0]]) + multiset(s[1..]);
    }
  }

  /** Filtering distributes over concatenation: the kept elements stay in
      their original relative order. */
  lemma {:induction false} FilterConcat<T(!new)>(a: seq<T>, b: seq<T>, keep: T -> bool)
    ensures Filter(a + b, keep) == Filter(a, keep) + Filter(b, keep)
  {
    if a == [] {
      assert a + b == b;
    } else {
      var head := if keep(a[0]) then [a[0]] else [];
      assert a + b != [];
      assert (a + b)[0] == a[0];
      assert (a + b)[1..] == a[1..] + b;
      assert Filter(a + b, keep) == head + Filter(a[1..] + b, keep);
      FilterConcat(a[1..], b, keep);
      assert Filter(a, keep) == head + Filter(a[1..], keep);
    }
  }

  /** Filtering with a predicate that keeps every element changes nothing. */
  lemma {:induction false} FilterKeepsAll<T(!new)>(s: seq<T>, keep: T -> bool)
    requires forall x :: x in s ==> keep(x)
    ensures Filter(s, keep) == s
  {
    if s != [] {
      FilterKeepsAll(s[1..], keep);
    }
  }

  /** The index at which `splice(start, …)` starts on an array of length
      `len`: a negative start counts back from the end and is clamped at 0,
      a start past the end is clamped to the end. */
  function SpliceStart(len: nat, start: int): (k: nat)
    ensures k <= len
    ensures 0 <= start < len ==> k == start
    ensures start < 0 && 0 <= len as int + start ==> k as int == len as int + start
    ensures len as int + start < 0 ==> k == 0
    ensures len <= start ==> k == len
  {
    if start < 0 then (if len + start < 0 then 0 else len + start)
    else if start < len then start
    else len
  }

  /** The array left by `copy.splice(start, 1)`: the element at the actual
      start index is taken out and the later ones move down by one; when the
      start is at the end, nothing is removed. */
  function RemoveAt<T>(s: seq<T>, start: int): (r: seq<T>)
    ensures SpliceStart(|s|, start) < |s| ==>
              && |r| == |s| - 1
              && (forall i :: 0 <= i < SpliceStart(|s|, start) ==> r[i] == s[i])
              && (forall i :: SpliceStart(|s|, start) <= i < |r| ==> r[i] == s[i + 1])
    ensures SpliceStart(|s|, start) == |s| ==> r == s
  {
    var k := SpliceStart(|s|, start);
    if k < |s| then s[..k] + s[k + 1..] else s
  }

  /** Removing the element just appended restores the original array. */
  lemma RemoveAppended<T>(s: seq<T>, x: T)
    ensures RemoveAt(s + [x], |s|) == s
  {
    var r := RemoveAt(s + [x], |s|);
    assert |r| == |s|;
    assert forall i :: 0 <= i < |s| ==> r[i] == s[i];
  }
}

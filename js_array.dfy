/** The two array operations the screens derive their views with:
    `Array.prototype.filter` and `Array.prototype.slice`. */
module JsArray {

  /** `r` is `s` with some elements dropped, the rest kept in their order. */
  predicate IsSubsequence<T(==)>(r: seq<T>, s: seq<T>)
    decreases |s|
  {
    if s == [] then r == []
    else (r != [] && r[0] == s[0] && IsSubsequence(r[1..], s[1..])) || IsSubsequence(r, s[1..])
  }

  lemma {:induction false} SubsequenceReflexive<T>(s: seq<T>)
    ensures IsSubsequence(s, s)
  {
    if s != [] {
      SubsequenceReflexive(s[1..]);
    }
  }

  lemma {:induction false} SubsequenceTransitive<T>(a: seq<T>, b: seq<T>, c: seq<T>)
    requires IsSubsequence(a, b) && IsSubsequence(b, c)
    ensures IsSubsequence(a, c)
    decreases |c|
  {
    if c != [] {
      if b != [] && b[0] == c[0] && IsSubsequence(b[1..], c[1..]) {
        if a != [] && a[0] == b[0] && IsSubsequence(a[1..], b[1..]) {
          SubsequenceTransitive(a[1..], b[1..], c[1..]);
        } else {
          SubsequenceTransitive(a, b[1..], c[1..]);
        }
      } else {
        SubsequenceTransitive(a, b, c[1..]);
      }
    }
  }

  /** `s.filter(keep)`: the elements of `s` that satisfy `keep`, in order.
      Every copy of a kept value is kept: a value occurs in the result exactly
      as often as in `s` when it satisfies `keep`, and not at all otherwise. */
  function Filter<T(==,!new)>(s: seq<T>, keep: T -> bool): (r: seq<T>)
    ensures |r| <= |s|
    ensures forall i :: 0 <= i < |r| ==> r[i] in s && keep(r[i])
    ensures forall i :: 0 <= i < |s| && keep(s[i]) ==> s[i] in r
    ensures forall x :: multiset(r)[x] == if keep(x) then multiset(s)[x] else 0
    ensures IsSubsequence(r, s)
  {
    if s == [] then []
    else
      assert s == [s[0]] + s[1..];
      if keep(s[0]) then [s[0]] + Filter(s[1..], keep)
      else Filter(s[1..], keep)
  }

  /** A predicate every element satisfies keeps the whole array. */
  lemma {:induction false} FilterKeepsAll<T(!new)>(s: seq<T>, keep: T -> bool)
    requires forall i :: 0 <= i < |s| ==> keep(s[i])
    ensures Filter(s, keep) == s
  {
    if s != [] {
      FilterKeepsAll(s[1..], keep);
    }
  }

  /** How `slice` turns an argument into an index: a negative one counts back
      from the end, and the result is clamped to `0..len`. */
  function SliceIndex(k: int, len: nat): (j: nat)
    ensures j <= len
    ensures 0 <= k ==> j == if k < len then k else len
  {
    if k < 0 then (if len + k < 0 then 0 else len + k)
    else if k < len then k else len
  }

  /** `s.slice(start, end)`. */
  function Slice<T>(s: seq<T>, start: int, end: int): (r: seq<T>)
    ensures |r| <= |s|
    ensures start <= end ==> |r| <= end - start
    ensures forall i :: 0 <= i < |r| ==> r[i] in s
    ensures 0 <= end <= start ==> r == []
    ensures 0 <= start <= end ==>
      var from, to := SliceIndex(start, |s|), SliceIndex(end, |s|);
      r == s[from..to]
  {
    var from, to := SliceIndex(start, |s|), SliceIndex(end, |s|);
    if from < to then s[from..to] else []
  }
}

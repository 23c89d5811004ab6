/** The JavaScript array operations the handlers use, on immutable
    sequences: `filter`, `splice(i, 1)` and `slice(0, n)`. */
module Seqs {

  /** `s.filter(p)`: the elements satisfying `p`, each as many times as in
      `s`, in their original order (see FilterConcat). */
  function Filter<T(!new)>(p: T -> bool, s: seq<T>): (r: seq<T>)
    ensures |r| <= |s|
    ensures forall i | 0 <= i < |r| :: p(r[i])
    ensures forall x :: multiset(r)[x] == if p(x) then multiset(s)[x] else 0
    ensures (forall i | 0 <= i < |s| :: p(s[i])) ==> r == s
  {
    if s == [] then []
    else
      assert s == [s[0]] + s[1..];
      (if p(s[0]) then [s[0]] else []) + Filter(p, s[1..])
  }

  /** Filtering distributes over concatenation, so the kept elements stay
      in the order they had. */
  lemma {:induction false} FilterConcat<T(!new)>(p: T -> bool, a: seq<T>, b: seq<T>)
    ensures Filter(p, a + b) == Filter(p, a) + Filter(p, b)
  {
    if a == [] {
      assert a + b == b;
    } else {
      assert (a + b)[1..] == a[1..] + b;
      FilterConcat(p, a[1..], b);
    }
  }

  /** Where `splice(i, 1)` starts: a negative index counts from the end and
      an index past the end is clamped to the length. */
  function SpliceStart(len: nat, i: int): (k: nat)
    ensures k <= len
    ensures 0 <= i < len ==> k == i
    ensures i >= len ==> k == len
  {
    if i < 0 then (if len + i < 0 then 0 else len + i)
    else if i > len then len
    else i
  }

  /** `splice(i, 1)` on a copy: the element at the start position is
      removed and the others keep their order; nothing is removed when the
      start is the length. */
  function RemoveAt<T>(s: seq<T>, i: int): (r: seq<T>)
    ensures var k := SpliceStart(|s|, i);
      && (k < |s| ==> |r| == |s| - 1
                      && (forall j | 0 <= j < k :: r[j] == s[j])
                      && (forall j | k <= j < |r| :: r[j] == s[j + 1])
                      && multiset(r) + multiset{s[k]} == multiset(s))
      && (k == |s| ==> r == s)
  {
    var k := SpliceStart(|s|, i);
    if k < |s| then
      assert s == s[..k] + [s[k]] + s[k + 1..];
      s[..k] + s[k + 1..]
    else s
  }

  /** Removing at index `i` twice removes the two original elements at
      `i` and `i + 1`, never the same one twice. */
  lemma RemoveAtTwice<T>(s: seq<T>, i: nat)
    requires i + 1 < |s|
    ensures RemoveAt(RemoveAt(s, i), i) == s[..i] + s[i + 2..]
  {
  }

  /** `s.slice(0, n)` for a non-negative `n`: the first `n` elements, or
      all of them when there are fewer. */
  function Take<T>(s: seq<T>, n: nat): (r: seq<T>)
    ensures |r| == if n < |s| then n else |s|
    ensures forall j | 0 <= j < |r| :: r[j] == s[j]
  {
    if n < |s| then s[..n] else s
  }
}

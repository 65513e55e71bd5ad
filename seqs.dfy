/** Sequence utilities shared by the table's reordering state and its data
    generator: JavaScript's `Array.prototype.indexOf` and `map`, and the
    `arrayMove` splice helper of the drag-and-drop library. */
module Seqs {

  datatype Option<+T> = None | Some(value: T)

  /** `s.indexOf(x)`: the first index holding `x`, or -1 when `x` is absent. */
  function IndexOf<T(==)>(s: seq<T>, x: T): (r: int)
    ensures -1 <= r < |s|
    ensures r == -1 <==> x !in s
    ensures 0 <= r ==> s[r] == x && forall k | 0 <= k < r :: s[k] != x
  {
    if s == [] then -1
    else if s[0] == x then 0
    else
      var i := IndexOf(s[1..], x);
      if i == -1 then -1 else i + 1
  }

  /** `s.map(f)` for a callback that ignores its index argument. */
  function MapSeq<A, B>(s: seq<A>, f: A -> B): (r: seq<B>)
    ensures |r| == |s|
    ensures forall i | 0 <= i < |s| :: r[i] == f(s[i])
  {
    if s == [] then [] else [f(s[0])] + MapSeq(s[1..], f)
  }

  /** `arrayMove(s, from, to)`: on a copy of `s`, remove the element at
      `from`, then insert it at `to`. Both indices must lie inside `s`. */
  function ArrayMove<T>(s: seq<T>, from: nat, to: nat): (r: seq<T>)
    requires from < |s| && to < |s|
    ensures |r| == |s|
  {
    var rest := s[..from] + s[from + 1..];
    rest[..to] + [s[from]] + rest[to..]
  }

  /** Where each element of the moved sequence comes from: the moved element
      lands at `to`, the elements between the two positions shift by one
      towards `from`, and everything outside them stays put. */
  function MovedFrom(from: nat, to: nat, k: nat): (j: nat)
  {
    if k == to then from
    else if from < to && from <= k < to then k + 1
    else if to < from && to < k <= from then k - 1
    else k
  }

  lemma ArrayMoveAt<T>(s: seq<T>, from: nat, to: nat, k: nat)
    requires from < |s| && to < |s| && k < |s|
    ensures MovedFrom(from, to, k) < |s|
    ensures ArrayMove(s, from, to)[k] == s[MovedFrom(from, to, k)]
  {
    var rest := s[..from] + s[from + 1..];
    assert forall m | 0 <= m < |rest| :: rest[m] == if m < from then s[m] else s[m + 1];
    var r := ArrayMove(s, from, to);
    if k < to {
      assert r[k] == rest[k];
    } else if k > to {
      assert r[k] == rest[k - 1];
    }
  }

  /** The move is a permutation: same length, same multiset of elements. */
  lemma ArrayMovePermutes<T>(s: seq<T>, from: nat, to: nat)
    requires from < |s| && to < |s|
    ensures multiset(ArrayMove(s, from, to)) == multiset(s)
  {
    var x := s[from];
    var rest := s[..from] + s[from + 1..];
    assert s == s[..from] + [x] + s[from + 1..];
    assert multiset(s) == multiset(rest) + multiset{x};
    assert rest == rest[..to] + rest[to..];
    assert multiset(rest) == multiset(rest[..to]) + multiset(rest[to..]);
  }

  /** The moved element lands exactly at `to`, the index the target held. */
  lemma ArrayMoveLands<T>(s: seq<T>, from: nat, to: nat)
    requires from < |s| && to < |s|
    ensures ArrayMove(s, from, to)[to] == s[from]
  {
    ArrayMoveAt(s, from, to, to);
  }

  /** Moving an element onto its own index changes nothing. */
  lemma ArrayMoveSelf<T>(s: seq<T>, i: nat)
    requires i < |s|
    ensures ArrayMove(s, i, i) == s
  {
    forall k | 0 <= k < |s| ensures ArrayMove(s, i, i)[k] == s[k] {
      ArrayMoveAt(s, i, i, k);
    }
  }

  /** Moving back from `to` to `from` undoes a move. */
  lemma ArrayMoveInverse<T>(s: seq<T>, from: nat, to: nat)
    requires from < |s| && to < |s|
    ensures ArrayMove(ArrayMove(s, from, to), to, from) == s
  {
    var r := ArrayMove(s, from, to);
    var back := ArrayMove(r, to, from);
    forall k | 0 <= k < |s| ensures back[k] == s[k] {
      ArrayMoveAt(r, to, from, k);
      ArrayMoveAt(s, from, to, MovedFrom(to, from, k));
    }
  }

  /** Moving commutes with mapping: projecting each element and then moving
      gives the same as moving and then projecting. */
  lemma ArrayMoveMap<A, B>(s: seq<A>, f: A -> B, from: nat, to: nat)
    requires from < |s| && to < |s|
    ensures ArrayMove(MapSeq(s, f), from, to) == MapSeq(ArrayMove(s, from, to), f)
  {
    var l := ArrayMove(MapSeq(s, f), from, to);
    var r := MapSeq(ArrayMove(s, from, to), f);
    forall k | 0 <= k < |s| ensures l[k] == r[k] {
      ArrayMoveAt(MapSeq(s, f), from, to, k);
      ArrayMoveAt(s, from, to, k);
    }
  }

  /** Two worked moves. */
  lemma ArrayMoveExamples<T>(a: T, b: T, c: T, d: T)
    ensures ArrayMove([a, b, c, d], 0, 2) == [b, c, a, d]
    ensures ArrayMove([a, b, c, d], 3, 1) == [a, d, b, c]
  {
    var s := [a, b, c, d];
    assert s[..0] + s[1..] == [b, c, d];
    assert s[..3] + s[4..] == [a, b, c];
  }
}

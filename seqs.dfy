/** Order-preserving filtering of sequences, the model of JavaScript's
    `Array.prototype.filter` with a callback that only reads its element. */
module Seqs {

  /** The elements of `s` that satisfy `keep`, in their original order. */
  function Filter<T>(s: seq<T>, keep: T -> bool): (r: seq<T>)
    ensures |r| <= |s|
    ensures forall i :: 0 <= i < |r| ==> keep(r[i])
    decreases |s|
  {
    if s == [] then []
    else if keep(s[0]) then [s[0]] + Filter(s[1..], keep)
    else Filter(s[1..], keep)
  }

  /** `idx` lists, in strictly increasing order, positions of `b` that spell out `a`:
      `a` is `b` with some elements dropped and the rest in their original order. */
  ghost predicate Embedding<T>(idx: seq<nat>, a: seq<T>, b: seq<T>)
  {
    |idx| == |a| &&
    (forall i :: 0 <= i < |idx| ==> idx[i] < |b| && a[i] == b[idx[i]]) &&
    (forall i, j :: 0 <= i < j < |idx| ==> idx[i] < idx[j])
  }

  function Shift(idx: seq<nat>): seq<nat>
  {
    seq(|idx|, i requires 0 <= i < |idx| => idx[i] + 1)
  }

  /** An embedding into `b` is one into `[x] + b` once every position moves up by one. */
  lemma EmbedSkip<T>(idx: seq<nat>, a: seq<T>, b: seq<T>, x: T)
    requires Embedding(idx, a, b)
    ensures Embedding(Shift(idx), a, [x] + b)
  {
    forall i | 0 <= i < |idx|
      ensures Shift(idx)[i] < |[x] + b| && a[i] == ([x] + b)[Shift(idx)[i]]
    {
      assert ([x] + b)[idx[i] + 1] == b[idx[i]];
    }
  }

  /** A shared first element extends an embedding at position 0. */
  lemma EmbedCons<T>(idx: seq<nat>, a: seq<T>, b: seq<T>, x: T)
    requires Embedding(idx, a, b)
    ensures Embedding([0] + Shift(idx), [x] + a, [x] + b)
  {
    EmbedSkip(idx, a, b, x);
    var j := [0] + Shift(idx);
    forall i | 1 <= i < |j|
      ensures j[i] == Shift(idx)[i - 1]
    {
    }
  }

  /** Filtering keeps the survivors in their original relative order. */
  lemma {:induction false} FilterEmbeds<T>(s: seq<T>, keep: T -> bool) returns (idx: seq<nat>)
    ensures Embedding(idx, Filter(s, keep), s)
    decreases |s|
  {
    if s == [] {
      idx := [];
    } else {
      var tail := FilterEmbeds(s[1..], keep);
      assert s == [s[0]] + s[1..];
      if keep(s[0]) {
        EmbedCons(tail, Filter(s[1..], keep), s[1..], s[0]);
        idx := [0] + Shift(tail);
      } else {
        EmbedSkip(tail, Filter(s[1..], keep), s[1..], s[0]);
        idx := Shift(tail);
      }
    }
  }

  /** Filtering keeps every copy of an element that satisfies `keep` and no copy of one that does not. */
  lemma {:induction false} FilterCount<T>(s: seq<T>, keep: T -> bool, x: T)
    ensures multiset(Filter(s, keep))[x] == if keep(x) then multiset(s)[x] else 0
    decreases |s|
  {
    if s != [] {
      FilterCount(s[1..], keep, x);
      assert s == [s[0]] + s[1..];
    }
  }

  /** The survivors of a filter are exactly the elements that satisfy `keep`. */
  lemma FilterExactly<T>(s: seq<T>, keep: T -> bool)
    ensures forall x :: x in Filter(s, keep) <==> x in s && keep(x)
  {
    forall x
      ensures x in Filter(s, keep) <==> x in s && keep(x)
    {
      FilterCount(s, keep, x);
    }
  }

  /** Filtering one more element at the end appends it when it satisfies `keep`. */
  lemma {:induction false} FilterSnoc<T>(s: seq<T>, keep: T -> bool, x: T)
    ensures Filter(s + [x], keep) == Filter(s, keep) + (if keep(x) then [x] else [])
    decreases |s|
  {
    if s == [] {
      assert [] + [x] == [x];
      assert [x][1..] == [];
    } else {
      assert (s + [x])[1..] == s[1..] + [x];
      FilterSnoc(s[1..], keep, x);
    }
  }
}

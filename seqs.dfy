/** `Array.prototype.filter` and the facts the screens rely on: the result keeps
    exactly the elements that pass, with their multiplicities, in their original order. */
module Seqs {

  /** `sub` can be obtained from `s` by deleting elements (order is kept). */
  predicate IsSubseq<T(==,!new)>(sub: seq<T>, s: seq<T>)
    decreases |s|
  {
    if sub == [] then true
    else if s == [] then false
    else if sub[0] == s[0] then IsSubseq(sub[1..], s[1..])
    else IsSubseq(sub, s[1..])
  }

  function Filter<T(==,!new)>(s: seq<T>, keep: T -> bool): (r: seq<T>)
    ensures |r| <= |s|
    ensures forall x :: x in r <==> x in s && keep(x)
    ensures forall x :: multiset(r)[x] == if keep(x) then multiset(s)[x] else 0
    ensures (forall i :: 0 <= i < |s| ==> keep(s[i])) ==> r == s
    decreases |s|
  {
    if s == [] then []
    else
      var rest := Filter(s[1..], keep);
      assert s == [s[0]] + s[1..];
      if keep(s[0]) then [s[0]] + rest else rest
  }

  /** The filtered sequence is a subsequence of the input. */
  lemma {:induction false} FilterIsSubseq<T(!new)>(s: seq<T>, keep: T -> bool)
    ensures IsSubseq(Filter(s, keep), s)
    decreases |s|
  {
    if s != [] {
      FilterIsSubseq(s[1..], keep);
      var rest := Filter(s[1..], keep);
      if keep(s[0]) {
        assert ([s[0]] + rest)[1..] == rest;
      } else {
        SubseqDropFront(rest, s);
      }
    }
  }

  lemma {:induction false} SubseqDropFront<T(!new)>(sub: seq<T>, s: seq<T>)
    requires s != [] && IsSubseq(sub, s[1..])
    ensures IsSubseq(sub, s)
    decreases |s|, 0
  {
    if sub != [] && sub[0] == s[0] {
      SubseqTail(sub, s[1..]);
    }
  }

  /** Dropping the first element of a subsequence keeps it a subsequence. */
  lemma {:induction false} SubseqTail<T(!new)>(sub: seq<T>, s: seq<T>)
    requires sub != [] && IsSubseq(sub, s)
    ensures IsSubseq(sub[1..], s)
    decreases |s|, 1
  {
    if sub[0] == s[0] {
      if sub[1..] != [] {
        SubseqTail(sub[1..], s[1..]);
        SubseqDropFront(sub[1..], s);
      }
    } else {
      SubseqTail(sub, s[1..]);
      if sub[1..] != [] {
        SubseqDropFront(sub[1..], s);
      }
    }
  }

  /** Filtering distributes over concatenation. */
  lemma {:induction false} FilterConcat<T(!new)>(a: seq<T>, b: seq<T>, keep: T -> bool)
    ensures Filter(a + b, keep) == Filter(a, keep) + Filter(b, keep)
    decreases |a|
  {
    if a == [] {
      assert a + b == b;
    } else {
      var ab := a + b;
      assert ab[0] == a[0] && ab[1..] == a[1..] + b;
      FilterConcat(a[1..], b, keep);
      if keep(a[0]) {
        calc {
          Filter(ab, keep);
          [a[0]] + Filter(ab[1..], keep);
          [a[0]] + (Filter(a[1..], keep) + Filter(b, keep));
          ([a[0]] + Filter(a[1..], keep)) + Filter(b, keep);
        }
      } else {
        assert Filter(ab, keep) == Filter(ab[1..], keep);
      }
    }
  }

  /** Number of elements that satisfy `p` (`filter(p).length`). */
  function Count<T>(s: seq<T>, p: T -> bool): (n: nat)
    ensures n <= |s|
    decreases |s|
  {
    if s == [] then 0 else (if p(s[0]) then 1 else 0) + Count(s[1..], p)
  }

  /** The count is the length of the filtered sequence. */
  lemma {:induction false} CountIsFilterLength<T(!new)>(s: seq<T>, p: T -> bool)
    ensures Count(s, p) == |Filter(s, p)|
    decreases |s|
  {
    if s != [] {
      CountIsFilterLength(s[1..], p);
    }
  }

  /** Elements that pass `p` and elements that pass its complement `q` together make
      up the whole sequence. */
  lemma {:induction false} CountComplement<T(!new)>(s: seq<T>, p: T -> bool, q: T -> bool)
    requires forall x :: q(x) == !p(x)
    ensures Count(s, p) + Count(s, q) == |s|
    decreases |s|
  {
    if s != [] {
      CountComplement(s[1..], p, q);
    }
  }

  /** `ok` holds of every element and every element after it. */
  predicate Pairwise<T>(s: seq<T>, ok: (T, T) -> bool) {
    forall i, j :: 0 <= i < j < |s| ==> ok(s[i], s[j])
  }

  /** A relation that holds between every earlier and later element still holds after
      filtering (filtering never reorders). */
  lemma {:induction false} FilterPairwise<T(!new)>(s: seq<T>, keep: T -> bool, ok: (T, T) -> bool)
    requires Pairwise(s, ok)
    ensures Pairwise(Filter(s, keep), ok)
    decreases |s|
  {
    if s != [] {
      var tail := s[1..];
      PairwiseTail(s, ok);
      FilterPairwise(tail, keep, ok);
      var rest := Filter(tail, keep);
      if keep(s[0]) {
        forall y | y in rest ensures ok(s[0], y) {
          PairwiseHead(s, ok, y);
        }
        PairwiseCons(s[0], rest, ok);
        assert Filter(s, keep) == [s[0]] + rest;
      } else {
        assert Filter(s, keep) == rest;
      }
    }
  }

  lemma PairwiseTail<T(!new)>(s: seq<T>, ok: (T, T) -> bool)
    requires Pairwise(s, ok) && s != []
    ensures Pairwise(s[1..], ok)
  {
    var tail := s[1..];
    forall i, j | 0 <= i < j < |tail| ensures ok(tail[i], tail[j]) {
      assert tail[i] == s[i + 1] && tail[j] == s[j + 1];
    }
  }

  /** Putting in front an element related to every later one keeps the relation. */
  lemma PairwiseCons<T(!new)>(x: T, rest: seq<T>, ok: (T, T) -> bool)
    requires Pairwise(rest, ok) && forall y :: y in rest ==> ok(x, y)
    ensures Pairwise([x] + rest, ok)
  {
    var r := [x] + rest;
    forall i, j | 0 <= i < j < |r| ensures ok(r[i], r[j]) {
      assert r[j] == rest[j - 1];
      if i > 0 {
        assert r[i] == rest[i - 1];
      }
    }
  }

  /** The first element is related to every later one. */
  lemma PairwiseHead<T(!new)>(s: seq<T>, ok: (T, T) -> bool, x: T)
    requires Pairwise(s, ok) && s != [] && x in s[1..]
    ensures ok(s[0], x)
  {
    var k :| 0 <= k < |s[1..]| && s[1..][k] == x;
    assert s[1..][k] == s[k + 1];
  }
}

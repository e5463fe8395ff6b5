/** The array operations the dashboard is built from: `filter` and the
    `filter(...).length` count, and `slice(0, n)`. */
module Seqs {

  function Min(a: int, b: int): int { if a <= b then a else b }

  /** `s.filter(p)`: the elements of `s` that satisfy `p`, in input order.
*/
  function Filter<T(!new)>(s: seq<T>, p: T -> bool): (r: seq<T>)
    ensures |r| <= |s|
    ensures forall i :: 0 <= i < |r| ==> p(r[i])
    ensures |r| == |s| <==> forall i :: 0 <= i < |s| ==> p(s[i])
  {
    if |s| == 0 then []
    else
      assert s == [s[0]] + s[1..];
      (if p(s[0]) then [s[0]] else []) + Filter(s[1..], p)
  }

  /** Each value occurs in `Filter(s, p)` exactly as often as in `s` when it
      satisfies `p`, and not at all otherwise. */
  lemma {:induction false} FilterMultiset<T(!new)>(s: seq<T>, p: T -> bool, x: T)
    ensures multiset(Filter(s, p))[x] == if p(x) then multiset(s)[x] else 0
  {
    if |s| > 0 {
      FilterMultiset(s[1..], p, x);
      assert s == [s[0]] + s[1..];
    }
  }

  /** A predicate and its complement split `s` between them. */
  lemma {:induction false} FilterComplement<T(!new)>(s: seq<T>, p: T -> bool, q: T -> bool)
    requires forall x :: q(x) == !p(x)
    ensures |Filter(s, p)| + |Filter(s, q)| == |s|
  {
    if |s| > 0 {
      FilterComplement(s[1..], p, q);
    }
  }

  /** The count of a filter only depends on which positions pass it: two
      sequences of equal length whose elements agree on `p` position by
      position have equally long filters. */
  lemma {:induction false} FilterCountPointwise<T(!new)>(s: seq<T>, t: seq<T>, p: T -> bool)
    requires |s| == |t|
    requires forall i :: 0 <= i < |s| ==> p(s[i]) == p(t[i])
    ensures |Filter(s, p)| == |Filter(t, p)|
  {
    if |s| > 0 {
      FilterCountPointwise(s[1..], t[1..], p);
    }
  }

  /** Filtering distributes over concatenation. */
  lemma {:induction false} FilterAppend<T(!new)>(s: seq<T>, t: seq<T>, p: T -> bool)
    ensures Filter(s + t, p) == Filter(s, p) + Filter(t, p)
  {
    if |s| > 0 {
      FilterAppend(s[1..], t, p);
      assert (s + t)[1..] == s[1..] + t;
    } else {
      assert s + t == t;
    }
  }

  /** The positions of `s` whose element satisfies `p`. */
  function Positions<T>(s: seq<T>, p: T -> bool): set<int> {
    set i | 0 <= i < |s| && p(s[i])
  }

  /** `filter(p).length` is the number of positions whose element satisfies `p`. */
  lemma {:induction false} FilterCountIsPositions<T(!new)>(s: seq<T>, p: T -> bool)
    ensures |Filter(s, p)| == |Positions(s, p)|
    decreases |s|
  {
    if |s| > 0 {
      var n := |s| - 1;
      var front, last := s[..n], s[n];
      assert s == front + [last];
      FilterCountIsPositions(front, p);
      FilterAppend(front, [last], p);
      assert Filter([last], p) == (if p(last) then [last] else []) by {
        assert [last][1..] == [];
      }
      if p(last) {
        assert Positions(s, p) == Positions(front, p) + {n};
      } else {
        assert Positions(s, p) == Positions(front, p);
      }
    }
  }

  /** Reference definition: the sum of `f` over the elements. */
  function Sum<T>(s: seq<T>, f: T -> real): real
    decreases |s|
  {
    if |s| == 0 then 0.0 else f(s[0]) + Sum(s[1..], f)
  }

  /** `s.reduce((sum, x) => sum + f(x), acc)`: a left fold that visits the
      elements in input order. It ends at `acc` plus the sum. */
  function FoldSum<T>(s: seq<T>, f: T -> real, acc: real): (r: real)
    ensures r == acc + Sum(s, f)
    decreases |s|
  {
    if |s| == 0 then acc else FoldSum(s[1..], f, acc + f(s[0]))
  }

  /** `s.slice(0, n)` for `n >= 0`: the first `n` elements, or all of `s`
      when it is shorter. */
  function Take<T>(s: seq<T>, n: nat): (r: seq<T>)
    ensures |r| == Min(n, |s|)
    ensures forall i :: 0 <= i < |r| ==> r[i] == s[i]
    ensures |s| <= n ==> r == s
  {
    if |s| <= n then s else s[..n]
  }
}

/** Finite sums of integer sequences and the arithmetic facts the MICMAC
    metrics rest on: every influence or dependence score is such a sum. */
module Sums {

  /** Sum of the elements of `s`, first element first. */
  function Sum(s: seq<int>): int
  {
    if |s| == 0 then 0 else s[0] + Sum(s[1..])
  }

  /** The all-zero vector of length `n`. */
  function Zeros(n: nat): (z: seq<int>)
    ensures |z| == n
    ensures forall i :: 0 <= i < n ==> z[i] == 0
  {
    seq(n, i => 0)
  }

  /** Element-wise sum of two vectors of the same length (numpy's `+`). */
  function Add(a: seq<int>, b: seq<int>): (r: seq<int>)
    requires |a| == |b|
    ensures |r| == |a|
    ensures forall i :: 0 <= i < |r| ==> r[i] == a[i] + b[i]
  {
    seq(|a|, i requires 0 <= i < |a| => a[i] + b[i])
  }

  predicate NonNeg(s: seq<int>)
  {
    forall i :: 0 <= i < |s| ==> 0 <= s[i]
  }

  /** `a` is below `b` element by element. */
  predicate Below(a: seq<int>, b: seq<int>)
  {
    |a| == |b| && forall i :: 0 <= i < |a| ==> a[i] <= b[i]
  }

  lemma {:induction false} SumZeros(n: nat)
    ensures Sum(Zeros(n)) == 0
  {
    if n > 0 {
      assert Zeros(n)[1..] == Zeros(n - 1);
      SumZeros(n - 1);
    }
  }

  /** Summing is linear: the sum of an element-wise sum is the sum of the sums. */
  lemma {:induction false} SumAdd(a: seq<int>, b: seq<int>)
    requires |a| == |b|
    ensures Sum(Add(a, b)) == Sum(a) + Sum(b)
  {
    if |a| > 0 {
      assert Add(a, b)[1..] == Add(a[1..], b[1..]);
      SumAdd(a[1..], b[1..]);
    }
  }

  lemma {:induction false} SumNonNeg(s: seq<int>)
    requires NonNeg(s)
    ensures Sum(s) >= 0
  {
    if |s| > 0 {
      SumNonNeg(s[1..]);
    }
  }

  /** Summing is monotone in every element. */
  lemma {:induction false} SumMono(a: seq<int>, b: seq<int>)
    requires Below(a, b)
    ensures Sum(a) <= Sum(b)
  {
    if |a| > 0 {
      SumMono(a[1..], b[1..]);
    }
  }

  /** A sum of `|s|` elements that are each at most `c` is at most `|s| * c`. */
  lemma {:induction false} SumAtMost(s: seq<int>, c: int)
    requires forall i :: 0 <= i < |s| ==> s[i] <= c
    ensures Sum(s) <= |s| * c
  {
    if |s| > 0 {
      SumAtMost(s[1..], c);
      assert |s| * c == c + (|s| - 1) * c;
    }
  }

  /** If every element, scaled by `n`, exceeds `t`, then the sum scaled by `n`
      exceeds `|s|` copies of `t`. */
  lemma {:induction false} SumAllAbove(s: seq<int>, n: int, t: int)
    requires |s| > 0
    requires forall i :: 0 <= i < |s| ==> s[i] * n > t
    ensures Sum(s) * n > |s| * t
  {
    assert s[0] * n > t;
    if |s| == 1 {
      assert Sum(s) == s[0];
    } else {
      SumAllAbove(s[1..], n, t);
      calc {
        Sum(s) * n;
        (s[0] + Sum(s[1..])) * n;
        s[0] * n + Sum(s[1..]) * n;
      >
        t + (|s| - 1) * t;
        |s| * t;
      }
    }
  }

  /** Not every element of a non-empty sequence can lie strictly above the
      sequence's mean `Sum(s) / |s|`. */
  lemma NotAllAboveMean(s: seq<int>)
    requires |s| > 0
    ensures exists i :: 0 <= i < |s| && s[i] * |s| <= Sum(s)
  {
    if forall i :: 0 <= i < |s| ==> s[i] * |s| > Sum(s) {
      SumAllAbove(s, |s|, Sum(s));
    }
  }
}

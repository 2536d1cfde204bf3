/** Shared vocabulary: optional and fallible results, and sums over sequences. */
module Common {

  datatype Option<+T> = None | Some(value: T) {
    /** The `??` operator. */
    function GetOr(default: T): T {
      if Some? then value else default
    }
  }

  datatype Result<+T, +E> = Ok(value: T) | Err(error: E)

  /** Sum of a sequence of atomic amounts, folded from the left as the `reduce` calls do. */
  function Sum(s: seq<int>): int {
    if |s| == 0 then 0 else Sum(s[..|s| - 1]) + s[|s| - 1]
  }

  function SumReal(s: seq<real>): real {
    if |s| == 0 then 0.0 else SumReal(s[..|s| - 1]) + s[|s| - 1]
  }

  lemma SumAppend(s: seq<int>, x: int)
    ensures Sum(s + [x]) == Sum(s) + x
  {
    assert (s + [x])[..|s|] == s;
  }

  lemma SumPrefix(s: seq<int>, n: nat)
    requires n < |s|
    ensures Sum(s[..n + 1]) == Sum(s[..n]) + s[n]
  {
    assert s[..n + 1][..n] == s[..n];
  }

  lemma SumRealPrefix(s: seq<real>, n: nat)
    requires n < |s|
    ensures SumReal(s[..n + 1]) == SumReal(s[..n]) + s[n]
  {
    assert s[..n + 1][..n] == s[..n];
  }

  lemma {:induction false} SumUpdate(s: seq<int>, i: nat, x: int)
    requires i < |s|
    ensures Sum(s[i := x]) == Sum(s) - s[i] + x
  {
    var n := |s| - 1;
    if i == n {
      assert s[i := x][..n] == s[..n];
    } else {
      assert s[i := x][..n] == s[..n][i := x];
      SumUpdate(s[..n], i, x);
    }
  }

  /** Pointwise domination of equal-length sequences carries to sums, and equal sums leave no slack. */
  lemma {:induction false} SumDominates(s: seq<int>, t: seq<int>)
    requires |s| == |t|
    requires forall i :: 0 <= i < |s| ==> s[i] <= t[i]
    ensures Sum(s) <= Sum(t)
    ensures Sum(s) == Sum(t) ==> s == t
  {
    if |s| > 0 {
      var n := |s| - 1;
      SumDominates(s[..n], t[..n]);
      if Sum(s) == Sum(t) {
        assert s[n] == t[n];
        assert s == s[..n] + [s[n]];
        assert t == t[..n] + [t[n]];
      }
    }
  }

  lemma {:induction false} SumZip(a: seq<int>, b: seq<int>, c: seq<int>)
    requires |a| == |b| == |c|
    requires forall i :: 0 <= i < |a| ==> a[i] + b[i] == c[i]
    ensures Sum(a) + Sum(b) == Sum(c)
  {
    if |a| > 0 {
      var n := |a| - 1;
      SumZip(a[..n], b[..n], c[..n]);
    }
  }
}

/** Products and quotients of reals under names of their own, so that proofs can treat them as
    atoms and use only the laws below. */
module Reals {

  function Times(a: real, b: real): real {
    a * b
  }

  function Ratio(a: real, w: real): real
    requires w > 0.0
  {
    a / w
  }

  lemma TimesMono(a: real, b: real, c: real)
    requires a <= b && 0.0 <= c
    ensures Times(a, c) <= Times(b, c) && Times(c, a) <= Times(c, b)
    ensures a < b && 0.0 < c ==> Times(a, c) < Times(b, c) && Times(c, a) < Times(c, b)
  {
    hide Times;
    var d := b - a;
    TimesSum(c, a, d);
    NonNegativeProduct(d, c);
  }

  lemma NonNegativeProduct(d: real, c: real)
    requires 0.0 <= d && 0.0 <= c
    ensures Times(d, c) >= 0.0 && Times(c, d) >= 0.0
    ensures 0.0 < d && 0.0 < c ==> Times(d, c) > 0.0 && Times(c, d) > 0.0
  {
  }

  lemma TimesSum(a: real, x: real, y: real)
    ensures Times(a, x + y) == Times(a, x) + Times(a, y)
    ensures Times(x + y, a) == Times(x, a) + Times(y, a)
  {
  }

  lemma TimesUnits(a: real)
    ensures Times(a, 0.0) == Times(0.0, a) == 0.0 && Times(a, 1.0) == Times(1.0, a) == a
    ensures Times(a, -1.0) == -a
  {
  }

  lemma TimesAssoc(a: real, b: real, c: real)
    ensures Times(Times(a, b), c) == Times(a, Times(b, c))
    ensures Times(a, b) == Times(b, a) && Times(b, c) == Times(c, b)
  {
  }

  lemma RatioLaws(a: real, b: real, w: real)
    requires w > 0.0
    ensures Ratio(a, w) + Ratio(b, w) == Ratio(a + b, w)
    ensures a >= b ==> Ratio(a, w) >= Ratio(b, w)
    ensures a > b ==> Ratio(a, w) > Ratio(b, w)
    ensures Ratio(0.0, w) == 0.0 && Ratio(w, w) == 1.0
    ensures Times(Ratio(a, w), w) == a
  {
  }

  lemma RatioOfProduct(a: real, w: real)
    requires w > 0.0
    ensures Ratio(Times(a, w), w) == a
  {
  }
}

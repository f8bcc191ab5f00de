/**
 * The arithmetic both perceptron classes share: the number of switches, the
 * `ValueError` they raise, and the weighted sum `Σ inputs[i] * weights[i]`.
 * Python floats are modelled as `real`, so the sum is exact and its order does
 * not change its value; the model still computes it in Python's order and
 * proves that order equal to the mathematical sum.
 */
module Weighting {

  /** Number of input switches, and of weight knobs, on the machine. */
  const Size: nat := 16

  /** Python's `[x] * n`: the list holding `n` copies of `x`. */
  function Repeat<T>(x: T, n: nat): (s: seq<T>)
    ensures |s| == n && forall i :: 0 <= i < n ==> s[i] == x
  {
    if n == 0 then [] else Repeat(x, n - 1) + [x]
  }

  /** The default weights `[0.0] * 16`. */
  const ZeroWeights: seq<real> := Repeat(0.0, Size)

  /** The two `ValueError`s a perceptron raises: too few or too many weights, or inputs. */
  datatype ValueError = WrongWeightCount | WrongInputCount

  /** Number of pairs `zip(xs, ws)` yields: the length of the shorter list. */
  function Pairs(xs: seq<int>, ws: seq<real>): (n: nat)
    ensures n <= |xs| && n <= |ws| && (n == |xs| || n == |ws|)
  {
    if |xs| <= |ws| then |xs| else |ws|
  }

  /** Reference definition: `Σ_{i < Pairs(xs, ws)} xs[i] * ws[i]`, stated head first. */
  function Dot(xs: seq<int>, ws: seq<real>): real
  {
    if xs == [] || ws == [] then 0.0
    else (xs[0] as real) * ws[0] + Dot(xs[1..], ws[1..])
  }

  /** The first `n` products added left to right, starting from 0, as Python's `sum` does. */
  function SumFirst(xs: seq<int>, ws: seq<real>, n: nat): real
    requires n <= |xs| && n <= |ws|
  {
    if n == 0 then 0.0
    else SumFirst(xs, ws, n - 1) + (xs[n - 1] as real) * ws[n - 1]
  }

  /**
   * `sum(inp * weight for inp, weight in zip(xs, ws))`: the weighted sum in the
   * order the source computes it, equal to the reference sum `Dot`.
   */
  function WeightedSum(xs: seq<int>, ws: seq<real>): (r: real)
    ensures r == Dot(xs, ws)
  {
    var n := Pairs(xs, ws);
    SumFirstIsDot(xs, ws, n);
    DotOfZip(xs, ws);
    SumFirst(xs, ws, n)
  }

  /** Sum of a weight vector, head first. */
  function Sum(ws: seq<real>): real
  {
    if ws == [] then 0.0 else ws[0] + Sum(ws[1..])
  }

  /** The weighted sum splits at any point: adding up the products is order-free over reals. */
  lemma {:induction false} DotAppend(xs: seq<int>, ws: seq<real>, ys: seq<int>, vs: seq<real>)
    requires |xs| == |ws|
    ensures Dot(xs + ys, ws + vs) == Dot(xs, ws) + Dot(ys, vs)
  {
    if xs != [] {
      assert (xs + ys)[1..] == xs[1..] + ys;
      assert (ws + vs)[1..] == ws[1..] + vs;
      DotAppend(xs[1..], ws[1..], ys, vs);
    } else {
      assert xs + ys == ys && ws + vs == vs;
    }
  }

  /** The sum of the weights splits at any point. */
  lemma {:induction false} SumAppend(ws: seq<real>, vs: seq<real>)
    ensures Sum(ws + vs) == Sum(ws) + Sum(vs)
  {
    if ws != [] {
      assert (ws + vs)[1..] == ws[1..] + vs;
      SumAppend(ws[1..], vs);
    } else {
      assert ws + vs == vs;
    }
  }

  /** Python's left-to-right accumulation of the first `n` products is the reference sum of the first `n` pairs. */
  lemma {:induction false} SumFirstIsDot(xs: seq<int>, ws: seq<real>, n: nat)
    requires n <= |xs| && n <= |ws|
    ensures SumFirst(xs, ws, n) == Dot(xs[..n], ws[..n])
  {
    if n > 0 {
      SumFirstIsDot(xs, ws, n - 1);
      DotAppend(xs[..n - 1], ws[..n - 1], [xs[n - 1]], [ws[n - 1]]);
      assert xs[..n - 1] + [xs[n - 1]] == xs[..n];
      assert ws[..n - 1] + [ws[n - 1]] == ws[..n];
    }
  }

  /** `zip` stops at the shorter list: the sum only sees the first `Pairs(xs, ws)` elements of each. */
  lemma {:induction false} DotOfZip(xs: seq<int>, ws: seq<real>)
    ensures Dot(xs, ws) == Dot(xs[..Pairs(xs, ws)], ws[..Pairs(xs, ws)])
  {
    var n := Pairs(xs, ws);
    if xs != [] && ws != [] {
      DotOfZip(xs[1..], ws[1..]);
      assert Pairs(xs[1..], ws[1..]) == n - 1;
      assert xs[..n][1..] == xs[1..][..n - 1];
      assert ws[..n][1..] == ws[1..][..n - 1];
    }
  }

  /** With every switch up, the weighted sum is the sum of the weights. */
  lemma {:induction false} DotAllUp(xs: seq<int>, ws: seq<real>)
    requires |xs| == |ws|
    requires forall i :: 0 <= i < |xs| ==> xs[i] == 1
    ensures Dot(xs, ws) == Sum(ws)
  {
    if xs != [] {
      DotAllUp(xs[1..], ws[1..]);
    }
  }

  /** With every switch down, the weighted sum is minus the sum of the weights. */
  lemma {:induction false} DotAllDown(xs: seq<int>, ws: seq<real>)
    requires |xs| == |ws|
    requires forall i :: 0 <= i < |xs| ==> xs[i] == -1
    ensures Dot(xs, ws) == -Sum(ws)
  {
    if xs != [] {
      DotAllDown(xs[1..], ws[1..]);
    }
  }

  /** All-zero weights make the weighted sum zero, whatever the switches. */
  lemma {:induction false} DotZeroWeights(xs: seq<int>, ws: seq<real>)
    requires forall i :: 0 <= i < |ws| ==> ws[i] == 0.0
    ensures Dot(xs, ws) == 0.0
  {
    if xs != [] && ws != [] {
      DotZeroWeights(xs[1..], ws[1..]);
    }
  }
}

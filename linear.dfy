/**
 * Vector and matrix arithmetic over the reals, used to specify the layers.
 * A matrix is a sequence of rows; a weight matrix of a layer with I inputs and
 * J outputs has J rows of length I, the layout of `float[J, I]` in the layers.
 */
module Linear {

  /** Sum of x[k] * y[k] for k < |x|, accumulated from index 0 upward. */
  function Dot(x: seq<real>, y: seq<real>): (r: real)
    requires |x| == |y|
    decreases |x|
  {
    if |x| == 0 then 0.0 else Dot(x[..|x| - 1], y[..|y| - 1]) + x[|x| - 1] * y[|y| - 1]
  }

  function Zeros(n: nat): (r: seq<real>)
    ensures |r| == n
  {
    seq(n, _ => 0.0)
  }

  function Add(x: seq<real>, y: seq<real>): (r: seq<real>)
    requires |x| == |y|
    ensures |r| == |x|
  {
    seq(|x|, k requires 0 <= k < |x| => x[k] + y[k])
  }

  function Sub(x: seq<real>, y: seq<real>): (r: seq<real>)
    requires |x| == |y|
    ensures |r| == |x|
  {
    seq(|x|, k requires 0 <= k < |x| => x[k] - y[k])
  }

  function Scale(c: real, x: seq<real>): (r: seq<real>)
    ensures |r| == |x|
  {
    seq(|x|, k requires 0 <= k < |x| => c * x[k])
  }

  /** The parameters w moved by gain times the accumulated gradient d. */
  function Step(w: seq<real>, gain: real, d: seq<real>): (r: seq<real>)
    requires |w| == |d|
    ensures |r| == |w|
  {
    seq(|w|, k requires 0 <= k < |w| => w[k] + gain * d[k])
  }

  ghost predicate IsMatrix(m: seq<seq<real>>, rows: nat, cols: nat)
  {
    |m| == rows && forall j :: 0 <= j < |m| ==> |m[j]| == cols
  }

  function ZeroMatrix(rows: nat, cols: nat): (r: seq<seq<real>>)
    ensures IsMatrix(r, rows, cols)
  {
    seq(rows, _ => Zeros(cols))
  }

  function Column(m: seq<seq<real>>, cols: nat, i: nat): (r: seq<real>)
    requires IsMatrix(m, |m|, cols) && i < cols
    ensures |r| == |m|
  {
    seq(|m|, j requires 0 <= j < |m| => m[j][i])
  }

  /** Entries m[i][i] for i < n. */
  function Diagonal(m: seq<seq<real>>, n: nat): (r: seq<real>)
    requires n <= |m| && forall j :: 0 <= j < n ==> n <= |m[j]|
    ensures |r| == n
  {
    seq(n, i requires 0 <= i < n => m[i][i])
  }

  /** The product m x: row j of the result is Dot(x, m[j]). */
  function MatVec(m: seq<seq<real>>, x: seq<real>): (r: seq<real>)
    requires IsMatrix(m, |m|, |x|)
    ensures |r| == |m|
  {
    seq(|m|, j requires 0 <= j < |m| => Dot(x, m[j]))
  }

  /** The product of the transpose of m with e: entry i is Dot(e, column i). */
  function TransposeVec(m: seq<seq<real>>, e: seq<real>, cols: nat): (r: seq<real>)
    requires IsMatrix(m, |e|, cols)
    ensures |r| == cols
  {
    seq(cols, i requires 0 <= i < cols => Dot(e, Column(m, cols, i)))
  }

  /** The outer product: entry [j][i] is x[i] * e[j]. */
  function Outer(e: seq<real>, x: seq<real>): (r: seq<seq<real>>)
    ensures IsMatrix(r, |e|, |x|)
  {
    seq(|e|, j requires 0 <= j < |e| => seq(|x|, i requires 0 <= i < |x| => x[i] * e[j]))
  }

  function MatAdd(a: seq<seq<real>>, b: seq<seq<real>>, cols: nat): (r: seq<seq<real>>)
    requires IsMatrix(a, |a|, cols) && IsMatrix(b, |a|, cols)
    ensures IsMatrix(r, |a|, cols)
  {
    seq(|a|, j requires 0 <= j < |a| => Add(a[j], b[j]))
  }

  function MatScale(c: real, m: seq<seq<real>>): (r: seq<seq<real>>)
    ensures |r| == |m| && forall j :: 0 <= j < |m| ==> |r[j]| == |m[j]|
  {
    seq(|m|, j requires 0 <= j < |m| => Scale(c, m[j]))
  }

  /** Row by row, m moved by gain times d. */
  function MatStep(m: seq<seq<real>>, gain: real, d: seq<seq<real>>, cols: nat): (r: seq<seq<real>>)
    requires IsMatrix(m, |m|, cols) && IsMatrix(d, |m|, cols)
    ensures IsMatrix(r, |m|, cols)
  {
    seq(|m|, j requires 0 <= j < |m| => Step(m[j], gain, d[j]))
  }

  // ---------------------------------------------------------------------------
  // Properties of Dot

  /** One more term of a running sum: the step a summing loop takes. */
  lemma {:induction false} DotSnoc(x: seq<real>, y: seq<real>, k: nat)
    requires |x| == |y| && k < |x|
    ensures Dot(x[..k + 1], y[..k + 1]) == Dot(x[..k], y[..k]) + x[k] * y[k]
  {
    assert x[..k + 1][..k] == x[..k];
    assert y[..k + 1][..k] == y[..k];
  }

  lemma {:induction false} DotZeros(x: seq<real>)
    ensures Dot(x, Zeros(|x|)) == 0.0
    decreases |x|
  {
    if |x| > 0 {
      assert Zeros(|x|)[..|x| - 1] == Zeros(|x| - 1);
      DotZeros(x[..|x| - 1]);
    }
  }

  lemma {:induction false} DotComm(x: seq<real>, y: seq<real>)
    requires |x| == |y|
    ensures Dot(x, y) == Dot(y, x)
    decreases |x|
  {
    if |x| > 0 {
      DotComm(x[..|x| - 1], y[..|y| - 1]);
    }
  }

  lemma {:induction false} DotScale(x: seq<real>, c: real, y: seq<real>)
    requires |x| == |y|
    ensures Dot(x, Scale(c, y)) == c * Dot(x, y)
    decreases |x|
  {
    if |x| > 0 {
      var n := |x| - 1;
      forall k | 0 <= k < n ensures Scale(c, y)[..n][k] == Scale(c, y[..n])[k] { }
      assert Scale(c, y)[..n] == Scale(c, y[..n]);
      DotScale(x[..n], c, y[..n]);
      calc {
        Dot(x, Scale(c, y));
        Dot(x[..n], Scale(c, y[..n])) + x[n] * (c * y[n]);
        c * Dot(x[..n], y[..n]) + c * (x[n] * y[n]);
        c * Dot(x, y);
      }
    }
  }

  /** Dot is linear in its second argument, so in a committed step. */
  lemma {:induction false} DotStep(x: seq<real>, w: seq<real>, gain: real, d: seq<real>)
    requires |x| == |w| == |d|
    ensures Dot(x, Step(w, gain, d)) == Dot(x, w) + gain * Dot(x, d)
    decreases |x|
  {
    if |x| > 0 {
      var n := |x| - 1;
      forall k | 0 <= k < n ensures Step(w, gain, d)[..n][k] == Step(w[..n], gain, d[..n])[k] { }
      assert Step(w, gain, d)[..n] == Step(w[..n], gain, d[..n]);
      DotStep(x[..n], w[..n], gain, d[..n]);
      var sw, sd := Dot(x[..n], w[..n]), Dot(x[..n], d[..n]);
      assert Dot(x, Step(w, gain, d)) == (sw + gain * sd) + x[n] * (w[n] + gain * d[n]);
      assert Dot(x, w) == sw + x[n] * w[n];
      assert Dot(x, d) == sd + x[n] * d[n];
      assert x[n] * (w[n] + gain * d[n]) == x[n] * w[n] + gain * (x[n] * d[n]);
    }
  }

  lemma {:induction false} DotAdd(x: seq<real>, a: seq<real>, b: seq<real>)
    requires |x| == |a| == |b|
    ensures Dot(x, Add(a, b)) == Dot(x, a) + Dot(x, b)
    decreases |x|
  {
    if |x| > 0 {
      var n := |x| - 1;
      assert Add(a, b)[..n] == Add(a[..n], b[..n]);
      DotAdd(x[..n], a[..n], b[..n]);
    }
  }

  /** A step of gain 0 leaves the parameters where they are. */
  lemma {:induction false} StepZeroGain(w: seq<real>, d: seq<real>)
    requires |w| == |d|
    ensures Step(w, 0.0, d) == w
  {
    assert forall k :: 0 <= k < |w| ==> Step(w, 0.0, d)[k] == w[k];
  }

  /** Accumulating into a cleared accumulator stores the error itself. */
  lemma {:induction false} AddZeros(x: seq<real>)
    ensures Add(Zeros(|x|), x) == x
  {
    assert forall k :: 0 <= k < |x| ==> Add(Zeros(|x|), x)[k] == x[k];
  }

  /** Accumulating into a cleared matrix accumulator stores the gradient itself. */
  lemma {:induction false} MatAddZero(m: seq<seq<real>>, cols: nat)
    requires IsMatrix(m, |m|, cols)
    ensures MatAdd(ZeroMatrix(|m|, cols), m, cols) == m
  {
    forall j | 0 <= j < |m|
      ensures MatAdd(ZeroMatrix(|m|, cols), m, cols)[j] == m[j]
    {
      assert forall i :: 0 <= i < cols ==> MatAdd(ZeroMatrix(|m|, cols), m, cols)[j][i] == m[j][i];
    }
  }

  /** Scaling by momentum 0 clears a matrix. */
  lemma {:induction false} MatScaleZero(m: seq<seq<real>>, cols: nat)
    requires IsMatrix(m, |m|, cols)
    ensures MatScale(0.0, m) == ZeroMatrix(|m|, cols)
  {
    forall j | 0 <= j < |m|
      ensures MatScale(0.0, m)[j] == ZeroMatrix(|m|, cols)[j]
    {
      assert forall i :: 0 <= i < cols ==> MatScale(0.0, m)[j][i] == 0.0;
    }
  }

  // ---------------------------------------------------------------------------
  // Properties of the matrix products

  /**
   * The backward product is the adjoint of the forward product:
   * e . (m x) == (m^T e) . x, for every matrix m and vectors x, e.
   */
  lemma {:induction false} Adjoint(m: seq<seq<real>>, x: seq<real>, e: seq<real>)
    requires IsMatrix(m, |e|, |x|)
    ensures Dot(e, MatVec(m, x)) == Dot(TransposeVec(m, e, |x|), x)
    decreases |e|
  {
    var cols := |x|;
    if |e| == 0 {
      assert TransposeVec(m, e, cols) == Zeros(cols);
      DotComm(Zeros(cols), x);
      DotZeros(x);
    } else {
      var n := |e| - 1;
      Adjoint(m[..n], x, e[..n]);
      ForwardRowSnoc(m, x, e);
      BackwardRowSnoc(m, x, e);
    }
  }

  /** The first n outputs of m x are the outputs of the first n rows. */
  lemma {:induction false} MatVecPrefix(m: seq<seq<real>>, x: seq<real>, n: nat)
    requires IsMatrix(m, |m|, |x|) && n <= |m|
    ensures MatVec(m, x)[..n] == MatVec(m[..n], x)
  {
    forall j | 0 <= j < n
      ensures MatVec(m, x)[..n][j] == MatVec(m[..n], x)[j]
    {
      assert m[..n][j] == m[j];
    }
  }

  /** The last term of a dot product, with the last entry of y named t. */
  lemma {:induction false} DotLast(x: seq<real>, y: seq<real>, n: nat, t: real)
    requires |x| == |y| == n + 1 && y[n] == t
    ensures Dot(x, y) == Dot(x[..n], y[..n]) + x[n] * t
  {
  }

  /** Splitting off the last output: e . (m x) == e' . (m' x) + x . (e[n] m[n]), with n = |e| - 1. */
  lemma {:induction false} ForwardRowSnoc(m: seq<seq<real>>, x: seq<real>, e: seq<real>)
    requires IsMatrix(m, |e|, |x|) && 0 < |e|
    ensures Dot(e, MatVec(m, x))
            == Dot(e[..|e| - 1], MatVec(m[..|e| - 1], x)) + Dot(x, Scale(e[|e| - 1], m[|e| - 1]))
  {
    var n := |e| - 1;
    MatVecPrefix(m, x, n);
    DotLast(e, MatVec(m, x), n, Dot(x, m[n]));
    DotScale(x, e[n], m[n]);
  }

  /** m^T e is m'^T e' plus the last row scaled by the last error, with n = |e| - 1. */
  lemma {:induction false} TransposeVecLast(m: seq<seq<real>>, e: seq<real>, cols: nat)
    requires IsMatrix(m, |e|, cols) && 0 < |e|
    ensures TransposeVec(m, e, cols)
            == Add(TransposeVec(m[..|e| - 1], e[..|e| - 1], cols), Scale(e[|e| - 1], m[|e| - 1]))
  {
    TransposeVecSnoc(m, e, cols, |e| - 1);
    assert m[..|e|] == m && e[..|e|] == e;
  }

  lemma {:induction false} DotAddLeft(a: seq<real>, b: seq<real>, x: seq<real>)
    requires |a| == |b| == |x|
    ensures Dot(Add(a, b), x) == Dot(a, x) + Dot(x, b)
  {
    DotComm(Add(a, b), x);
    DotAdd(x, a, b);
    DotComm(a, x);
  }

  /** The same split of (m^T e) . x, through the row that output n adds to m^T e. */
  lemma {:induction false} BackwardRowSnoc(m: seq<seq<real>>, x: seq<real>, e: seq<real>)
    requires IsMatrix(m, |e|, |x|) && 0 < |e|
    ensures Dot(TransposeVec(m, e, |x|), x)
            == Dot(TransposeVec(m[..|e| - 1], e[..|e| - 1], |x|), x) + Dot(x, Scale(e[|e| - 1], m[|e| - 1]))
  {
    var n := |e| - 1;
    TransposeVecLast(m, e, |x|);
    DotAddLeft(TransposeVec(m[..n], e[..n], |x|), Scale(e[n], m[n]), x);
  }

  /** The transposed product over the first j + 1 rows adds row j, scaled by e[j], to that over j rows. */
  lemma {:induction false} TransposeVecSnoc(m: seq<seq<real>>, e: seq<real>, cols: nat, j: nat)
    requires IsMatrix(m, |e|, cols) && j < |e|
    ensures TransposeVec(m[..j + 1], e[..j + 1], cols) == Add(TransposeVec(m[..j], e[..j], cols), Scale(e[j], m[j]))
  {
    forall i | 0 <= i < cols
      ensures TransposeVec(m[..j + 1], e[..j + 1], cols)[i]
              == Add(TransposeVec(m[..j], e[..j], cols), Scale(e[j], m[j]))[i]
    {
      var c := Column(m, cols, i);
      assert Column(m[..j + 1], cols, i) == c[..j + 1];
      assert Column(m[..j], cols, i) == c[..j];
      DotSnoc(e, c, j);
    }
  }

  /** The outer product e x^T maps x to |x|^2 e. */
  lemma {:induction false} OuterResponse(e: seq<real>, x: seq<real>)
    ensures MatVec(Outer(e, x), x) == Scale(Dot(x, x), e)
  {
    var o := Outer(e, x);
    forall j | 0 <= j < |e|
      ensures MatVec(o, x)[j] == Scale(Dot(x, x), e)[j]
    {
      assert o[j] == Scale(e[j], x);
      DotScale(x, e[j], x);
    }
  }

  /** Committing a step changes the product by gain times the gradient's product. */
  lemma {:induction false} MatVecStep(m: seq<seq<real>>, gain: real, d: seq<seq<real>>, x: seq<real>)
    requires IsMatrix(m, |m|, |x|) && IsMatrix(d, |m|, |x|)
    ensures MatVec(MatStep(m, gain, d, |x|), x) == Step(MatVec(m, x), gain, MatVec(d, x))
  {
    forall j | 0 <= j < |m|
      ensures MatVec(MatStep(m, gain, d, |x|), x)[j] == Step(MatVec(m, x), gain, MatVec(d, x))[j]
    {
      DotStep(x, m[j], gain, d[j]);
    }
  }

  /** Residual algebra shared by both layer kinds: target - (y + gain c e) == (1 - gain c) e. */
  lemma {:induction false} StepResidual(target: seq<real>, y: seq<real>, y': seq<real>, e: seq<real>, gain: real, c: real)
    requires |target| == |y| && e == Sub(target, y) && y' == Step(y, gain, Scale(c, e))
    ensures Sub(target, y') == Scale(1.0 - gain * c, e)
  {
    forall j | 0 <= j < |target|
      ensures Sub(target, y')[j] == Scale(1.0 - gain * c, e)[j]
    {
      assert target[j] - (y[j] + gain * (c * e[j])) == (1.0 - gain * c) * (target[j] - y[j]);
    }
  }

  /**
   * Committing the outer-product gradient e x^T with a given gain moves the
   * response to x by gain |x|^2 e.
   */
  lemma {:induction false} CommitResponse(m: seq<seq<real>>, x: seq<real>, e: seq<real>, gain: real)
    requires IsMatrix(m, |e|, |x|)
    ensures MatVec(MatStep(m, gain, Outer(e, x), |x|), x) == Step(MatVec(m, x), gain, Scale(Dot(x, x), e))
  {
    MatVecStep(m, gain, Outer(e, x), x);
    OuterResponse(e, x);
  }

  /**
   * One gradient step from an empty accumulator on a weight layer: with the
   * residual e = target - m x as error and sq = |x|^2, the residual after the
   * step is (1 - gain sq) e.
   */
  lemma {:induction false} CommitScalesResidual(m: seq<seq<real>>, x: seq<real>, target: seq<real>, e: seq<real>, sq: real, gain: real)
    requires IsMatrix(m, |target|, |x|)
    requires e == Sub(target, MatVec(m, x)) && sq == Dot(x, x)
    ensures Sub(target, MatVec(MatStep(m, gain, Outer(e, x), |x|), x)) == Scale(1.0 - gain * sq, e)
  {
    CommitResponse(m, x, e, gain);
    StepResidual(target, MatVec(m, x), MatVec(MatStep(m, gain, Outer(e, x), |x|), x), e, gain, sq);
  }

  /**
   * The same for a bias layer x + b: with e = target - (x + b) as gradient,
   * the new residual is (1 - gain) e.
   */
  lemma {:induction false} BiasCommitScalesResidual(x: seq<real>, b: seq<real>, target: seq<real>, gain: real)
    requires |x| == |b| == |target|
    ensures var e := Sub(target, Add(x, b));
            Sub(target, Add(x, Step(b, gain, e))) == Scale(1.0 - gain, e)
  {
    var e := Sub(target, Add(x, b));
    forall k | 0 <= k < |x|
      ensures Add(x, Step(b, gain, e))[k] == Step(Add(x, b), gain, Scale(1.0, e))[k]
    {
    }
    assert Add(x, Step(b, gain, e)) == Step(Add(x, b), gain, Scale(1.0, e));
    StepResidual(target, Add(x, b), Add(x, Step(b, gain, e)), e, gain, 1.0);
  }
}

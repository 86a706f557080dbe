/**
 * Clients of the layers that follow XUnitTests/UnitTest1.cs: fresh layers,
 * wired through shared buffers where the tests share them, driven through
 * the training protocol. Each scenario allocates its own layers and changes
 * no state that existed before it.
 */
module Scenarios {
  import opened Linear
  import opened NeuralNetworks

  method NewVector(s: seq<real>) returns (a: array<real>)
    ensures fresh(a) && a[..] == s
  {
    a := new real[|s|](k requires 0 <= k < |s| => s[k]);
  }

  method NewMatrix(m: seq<seq<real>>, rows: nat, cols: nat) returns (a: array2<real>)
    requires IsMatrix(m, rows, cols)
    ensures fresh(a) && a.Length0 == rows && a.Length1 == cols && Matrix(a) == m
  {
    a := new real[rows, cols]((j, i) requires 0 <= j < rows && 0 <= i < cols => m[j][i]);
    forall j | 0 <= j < rows
      ensures Matrix(a)[j] == m[j]
    {
      assert forall i :: 0 <= i < cols ==> Matrix(a)[j][i] == m[j][i];
    }
  }

  /**
   * The forward pass of a 3-input, 5-output layer whose rows are {1, 2, 3},
   * three zero rows and {6, 5, 4}, on the input {1, 2, 3}; the output buffer
   * starts as ones and is overwritten.
   */
  method SynapticForwardExample() returns (out: seq<real>)
    ensures out == [14.0, 0.0, 0.0, 0.0, 28.0]
  {
    var syn := new SynapticLayer(3, 5);
    syn.SignalReceive := NewVector([1.0, 2.0, 3.0]);
    syn.SignalRespond := NewVector([1.0, 1.0, 1.0, 1.0, 1.0]);
    var zero := [0.0, 0.0, 0.0];
    syn.Weights := NewMatrix([[1.0, 2.0, 3.0], zero, zero, zero, [6.0, 5.0, 4.0]], 5, 3);
    syn.ForwardSignal();
    out := syn.SignalRespond[..];
    ExampleRows();
  }

  /** The three row products of the forward example. */
  lemma {:induction false} ExampleRows()
    ensures Dot([1.0, 2.0, 3.0], [1.0, 2.0, 3.0]) == 14.0
    ensures Dot([1.0, 2.0, 3.0], [0.0, 0.0, 0.0]) == 0.0
    ensures Dot([1.0, 2.0, 3.0], [6.0, 5.0, 4.0]) == 28.0
  {
    var x, z, w := [1.0, 2.0, 3.0], [0.0, 0.0, 0.0], [6.0, 5.0, 4.0];
    assert x[..2][..1] == [1.0] && z[..2][..1] == [0.0] && w[..2][..1] == [6.0];
    assert Dot(x[..2][..1], x[..2][..1]) == 1.0;
    assert Dot(x[..2][..1], z[..2][..1]) == 0.0;
    assert Dot(x[..2][..1], w[..2][..1]) == 6.0;
    assert Dot(x[..2], x[..2]) == 5.0;
    assert Dot(x[..2], z[..2]) == 0.0;
    assert Dot(x[..2], w[..2]) == 16.0;
  }

  /** A bias layer holding the given input, bias and accumulator. */
  method NewNeuralLayer(x: seq<real>, b: seq<real>, d: seq<real>) returns (layer: NeuralLayer)
    requires |x| == |b| == |d|
    ensures fresh(layer) && fresh(layer.Repr()) && layer.Valid() && layer.I == |x|
    ensures layer.SignalReceive != layer.SignalRespond
    ensures layer.SignalReceive[..] == x && layer.Bias[..] == b && layer.DeltaBias[..] == d
  {
    layer := new NeuralLayer(|x|);
    layer.SignalReceive := NewVector(x);
    layer.Bias := NewVector(b);
    layer.DeltaBias := NewVector(d);
  }

  /** ForwardSignal twice on unchanged inputs gives the same output both times. */
  method ForwardTwice(x: seq<real>, b: seq<real>) returns (first: seq<real>, second: seq<real>)
    requires |x| == |b|
    ensures first == second == Add(x, b)
  {
    var layer := NewNeuralLayer(x, b, b);
    layer.ForwardSignal();
    first := layer.SignalRespond[..];
    layer.ForwardSignal();
    second := layer.SignalRespond[..];
  }

  /** UpdateGain(0) responds exactly as ForwardSignal does. */
  method ZeroGainPreview(x: seq<real>, b: seq<real>, d: seq<real>) returns (preview: seq<real>, forward: seq<real>)
    requires |x| == |b| == |d|
    ensures preview == forward == Add(x, b)
  {
    var layer := NewNeuralLayer(x, b, d);
    layer.UpdateGain(0.0);
    preview := layer.SignalRespond[..];
    layer.ForwardSignal();
    forward := layer.SignalRespond[..];
    StepZeroGain(b, d);
  }

  /**
   * The preview UpdateGain(gain) of a bias layer is what ForwardSignal gives
   * after UpdateWeight(gain, momentum), for every momentum.
   */
  method PreviewMatchesCommit(x: seq<real>, b: seq<real>, d: seq<real>, gain: real, momentum: real)
    returns (preview: seq<real>, committed: seq<real>)
    requires |x| == |b| == |d|
    ensures preview == committed == Add(x, Step(b, gain, d))
  {
    var layer := NewNeuralLayer(x, b, d);
    layer.UpdateGain(gain);
    preview := layer.SignalRespond[..];
    layer.UpdateWeight(gain, momentum);
    layer.ForwardSignal();
    committed := layer.SignalRespond[..];
  }
  /** A sigmoid layer holding the given input, bias and received error. */
  method NewSigmoidLayer(x: seq<real>, b: seq<real>, err: seq<real>) returns (layer: SigmoidNeuralLayer)
    requires |x| == |b| == |err|
    ensures fresh(layer.Base.Repr()) && layer.Base.Valid() && layer.Base.I == |x|
    ensures layer.Base.SignalReceive != layer.Base.SignalRespond
    ensures layer.Base.ErrorReceive != layer.Base.SignalRespond
    ensures layer.Base.SignalReceive[..] == x && layer.Base.Bias[..] == b && layer.Base.ErrorReceive[..] == err
  {
    layer := new SigmoidNeuralLayer(|x|);
    layer.Base.SignalReceive := NewVector(x);
    layer.Base.Bias := NewVector(b);
    layer.Base.ErrorReceive := NewVector(err);
  }

  /**
   * FeedBackError of a sigmoid layer, run after its ForwardSignal, multiplies
   * each error by the derivative of the squashing function at the unit's net
   * input u = SignalReceive + Bias.
   */
  method SigmoidBackwardIsSlope(exp: real -> real, x: seq<real>, b: seq<real>, err: seq<real>)
    returns (back: seq<real>)
    requires forall u :: 0.0 < exp(u)
    requires |x| == |b| == |err|
    ensures |back| == |x|
    ensures forall k :: 0 <= k < |x| ==> back[k] == err[k] * SigmoidSlope(exp(-2.0 * (x[k] + b[k])))
  {
    var layer := NewSigmoidLayer(x, b, err);
    layer.ForwardSignal(exp);
    ghost var out := layer.Base.SignalRespond[..];
    layer.FeedBackError();
    back := layer.Base.ErrorRespond[..];
    assert back == SigmoidBackward(err, out);
    forall k | 0 <= k < |x|
      ensures back[k] == err[k] * SigmoidSlope(exp(-2.0 * (x[k] + b[k])))
    {
      var e := exp(-2.0 * (x[k] + b[k]));
      assert out[k] == SymmetricSigmoid(e);
      SigmoidSlopeFromOutput(e);
    }
  }

  /**
   * One iteration of the teacher and student bias layers of
   * UnitTestNeuralLayer.TestForwardSignal: both read the same input buffer,
   * the student receives teacher minus student as error, accumulates it and
   * commits with the given gain from an empty accumulator. The student's
   * residual on the same input shrinks by the factor 1 - gain.
   */
  method BiasTeacherStep(x: seq<real>, teacher: seq<real>, student: seq<real>, gain: real, momentum: real)
    returns (before: seq<real>, after: seq<real>)
    requires |x| == |teacher| == |student|
    ensures before == Sub(Add(x, teacher), Add(x, student))
    ensures after == Scale(1.0 - gain, before)
  {
    var input := NewVector(x);
    var a := NewNeuralLayerOn(input, teacher);
    var b := NewNeuralLayerOn(input, student);
    a.ForwardSignal();
    b.ForwardSignal();
    before := Sub(a.SignalRespond[..], b.SignalRespond[..]);
    b.ErrorReceive := NewVector(before);
    b.FeedBackError();
    AddZeros(before);
    assert b.DeltaBias[..] == before;
    b.UpdateWeight(gain, momentum);
    assert b.Bias[..] == Step(student, gain, before);
    a.ForwardSignal();
    b.ForwardSignal();
    after := Sub(a.SignalRespond[..], b.SignalRespond[..]);
    BiasCommitScalesResidual(x, student, Add(x, teacher), gain);
  }

  /** A bias layer reading the given input array, with the given bias and an empty accumulator. */
  method NewNeuralLayerOn(input: array<real>, b: seq<real>) returns (layer: NeuralLayer)
    requires input.Length == |b|
    ensures fresh(layer) && layer.Valid() && layer.I == |b| && layer.SignalReceive == input
    ensures fresh(layer.SignalRespond) && fresh(layer.ErrorReceive) && fresh(layer.ErrorRespond)
    ensures fresh(layer.Bias) && fresh(layer.DeltaBias)
    ensures layer.SignalRespond != layer.ErrorRespond
    ensures layer.Bias[..] == b && layer.DeltaBias[..] == Zeros(|b|)
  {
    layer := new NeuralLayer(|b|);
    layer.SignalReceive := input;
    layer.Bias := NewVector(b);
  }

  /**
   * One iteration of the teacher and student weight layers of
   * UnitTestSynapticLayer.TestFeedBack: both read the same input, the
   * student receives teacher minus student as error, accumulates the
   * outer-product gradient into its empty accumulator and commits it. The
   * student's residual on the same input shrinks by the factor
   * 1 - gain norm, where norm is the squared length |x|^2 of the input.
   */
  method SynapticTeacherStep(x: seq<real>, teacher: seq<seq<real>>, student: seq<seq<real>>, J: nat, gain: real, momentum: real)
    returns (before: seq<real>, after: seq<real>, norm: real)
    requires IsMatrix(teacher, J, |x|) && IsMatrix(student, J, |x|)
    ensures before == Sub(MatVec(teacher, x), MatVec(student, x))
    ensures norm == Dot(x, x) && after == Scale(1.0 - gain * norm, before)
  {
    var input := NewVector(x);
    var a := NewSynapticLayer(input, teacher, J);
    var b := NewSynapticLayer(input, student, J);
    a.ForwardSignal();
    b.ForwardSignal();
    before := Sub(a.SignalRespond[..], b.SignalRespond[..]);
    b.ErrorReceive := NewVector(before);
    b.FeedBackError();
    MatAddZero(Outer(before, x), |x|);
    assert Matrix(b.DeltaWeights) == Outer(before, x);
    b.UpdateWeight(gain, momentum);
    assert Matrix(b.Weights) == MatStep(student, gain, Outer(before, x), |x|);
    assert input[..] == x && Matrix(a.Weights) == teacher;
    a.ForwardSignal();
    b.ForwardSignal();
    assert a.SignalRespond[..] == MatVec(teacher, x);
    assert b.SignalRespond[..] == MatVec(MatStep(student, gain, Outer(before, x), |x|), x);
    after := Sub(a.SignalRespond[..], b.SignalRespond[..]);
    norm := Dot(x, x);
    CommitScalesResidual(student, x, MatVec(teacher, x), before, norm, gain);
  }

  /**
   * UpdateGain(0) next to ForwardSignal on a fresh weight layer. The forward
   * pass gives row j of the weights times the input; the preview, as
   * written, gives every output the same sum over the diagonal entries
   * w[i][i]. For the bias layer the two coincide (ZeroGainPreview); here
   * they differ as soon as two rows differ (DiagonalPreviewDiffers).
   */
  method SynapticZeroGainPreview(x: seq<real>, w: seq<seq<real>>, J: nat)
    returns (preview: seq<real>, forward: seq<real>)
    requires IsMatrix(w, J, |x|) && (J == 0 || |x| <= J)
    ensures forward == MatVec(w, x)
    ensures |preview| == J && forall j :: 0 <= j < J ==> preview[j] == Dot(x, Diagonal(w, |x|))
  {
    var input := NewVector(x);
    var layer := NewSynapticLayer(input, w, J);
    layer.UpdateGain(0.0);
    preview := layer.SignalRespond[..];
    if J > 0 {
      assert Diagonal(Matrix(layer.DeltaWeights), |x|) == Zeros(|x|);
      StepZeroGain(Diagonal(w, |x|), Zeros(|x|));
    }
    layer.ForwardSignal();
    forward := layer.SignalRespond[..];
  }

  /** With rows {0} and {1} and input {1}, the preview gives 0 where the forward pass gives 1. */
  lemma {:induction false} DiagonalPreviewDiffers()
    ensures var w, x := [[0.0], [1.0]], [1.0];
            Dot(x, Diagonal(w, 1)) == 0.0 && MatVec(w, x)[1] == 1.0
  {
    var w, x := [[0.0], [1.0]], [1.0];
    assert Diagonal(w, 1) == [0.0];
    assert x[..0] == [] && w[1][..0] == [];
    assert Dot(x, w[1]) == 1.0;
  }

  /** A weight layer reading the given input array, with the given weights and an empty accumulator. */
  method NewSynapticLayer(input: array<real>, w: seq<seq<real>>, J: nat) returns (layer: SynapticLayer)
    requires IsMatrix(w, J, input.Length)
    ensures fresh(layer) && layer.Valid() && layer.I == input.Length && layer.J == J
    ensures layer.SignalReceive == input
    ensures layer.SignalRespond != null && fresh(layer.SignalRespond) && layer.SignalRespond.Length == J
    ensures layer.ErrorRespond != null && fresh(layer.ErrorRespond) && layer.ErrorRespond.Length == input.Length
    ensures layer.SignalRespond != layer.ErrorRespond
    ensures fresh(layer.Weights) && fresh(layer.DeltaWeights)
    ensures Matrix(layer.Weights) == w && Matrix(layer.DeltaWeights) == ZeroMatrix(J, input.Length)
  {
    layer := new SynapticLayer(input.Length, J);
    layer.SignalReceive := input;
    layer.SignalRespond := new real[J];
    layer.ErrorRespond := new real[input.Length];
    layer.Weights := NewMatrix(w, J, input.Length);
  }
}

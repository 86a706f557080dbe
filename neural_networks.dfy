/**
 * The layers of NeuralNetworks/NeuralNetworks.cs. Each layer follows the
 * four-step training protocol of `ITrain`: ForwardSignal, FeedBackError,
 * UpdateGain (a preview of a step) and UpdateWeight (the committed step).
 * A layer holds reference arrays: its signal and error buffers are shared
 * with the neighbouring layers, its parameters and their gradient
 * accumulators are its own. Numbers are reals.
 */
module NeuralNetworks {
  import opened Linear

  /** A J x I array as J rows of length I. */
  ghost function Matrix(a: array2<real>): (m: seq<seq<real>>)
    reads a
    ensures IsMatrix(m, a.Length0, a.Length1)
    ensures forall j, i :: 0 <= j < a.Length0 && 0 <= i < a.Length1 ==> m[j][i] == a[j, i]
  {
    seq(a.Length0, j requires 0 <= j < a.Length0 reads a =>
      seq(a.Length1, i requires 0 <= i < a.Length1 reads a => a[j, i]))
  }

  /**
   * The symmetric sigmoid 2 / (1 + e) - 1 of SigmoidNeuralLayer, where e is
   * exp(-2 u) for the unit's net input u.
   */
  function SymmetricSigmoid(e: real): (s: real)
    requires 0.0 < e
    ensures -1.0 < s < 1.0
  {
    2.0 / (1.0 + e) - 1.0
  }

  /** 4 e / (1 + e)^2, the slope of the symmetric sigmoid where exp(-2 u) is e. */
  function SigmoidSlope(e: real): real
    requires 0.0 < e
  {
    4.0 * e / ((1.0 + e) * (1.0 + e))
  }

  /**
   * The derivative of u |-> 2 / (1 + exp(-2 u)) - 1, by the chain rule with
   * exp' = exp, is 4 e / (1 + e)^2 with e = exp(-2 u). The backward pass of
   * SigmoidNeuralLayer computes it from the cached output s as 1 - s^2.
   */
  lemma {:induction false} SigmoidSlopeFromOutput(e: real)
    requires 0.0 < e
    ensures 1.0 - SymmetricSigmoid(e) * SymmetricSigmoid(e) == SigmoidSlope(e)
  {
    var d := 1.0 + e;
    var s := SymmetricSigmoid(e);
    assert s == (1.0 - e) / d;
    assert s * s == (1.0 - e) * (1.0 - e) / (d * d);
    assert d * d - (1.0 - e) * (1.0 - e) == 4.0 * e;
  }

  /**
   * The output of a sigmoid unit with net input u, where exp stands for the
   * exponential function: 2 / (1 + exp(-2 u)) - 1.
   */
  function Squash(exp: real -> real, u: real): (s: real)
    requires 0.0 < exp(-2.0 * u)
    ensures -1.0 < s < 1.0
  {
    SymmetricSigmoid(exp(-2.0 * u))
  }

  /** Entry k is err[k] * (1 - out[k]^2): the error scaled by the sigmoid's slope. */
  function SigmoidBackward(err: seq<real>, out: seq<real>): (r: seq<real>)
    requires |err| == |out|
    ensures |r| == |err|
  {
    seq(|err|, k requires 0 <= k < |err| => err[k] * (1.0 - out[k] * out[k]))
  }

  /** A layer of I units, each adding its own bias to its input. */
  class NeuralLayer {
    const I: nat

    var SignalReceive: array<real>
    var SignalRespond: array<real>
    var ErrorReceive: array<real>
    var ErrorRespond: array<real>
    var Bias: array<real>
    var DeltaBias: array<real>

    /**
     * Every array has length I, and the bias and its accumulator are the
     * layer's own: distinct from each other and from the four buffers, which
     * other layers may share.
     */
    ghost predicate Valid()
      reads this
    {
      && SignalReceive.Length == I && SignalRespond.Length == I
      && ErrorReceive.Length == I && ErrorRespond.Length == I
      && Bias.Length == I && DeltaBias.Length == I
      && Bias != DeltaBias
      && Bias != SignalReceive && Bias != SignalRespond
      && Bias != ErrorReceive && Bias != ErrorRespond
      && DeltaBias != SignalReceive && DeltaBias != SignalRespond
      && DeltaBias != ErrorReceive && DeltaBias != ErrorRespond
    }

    ghost function Repr(): set<object>
      reads this
    {
      {this, SignalReceive, SignalRespond, ErrorReceive, ErrorRespond, Bias, DeltaBias}
    }

    /** Allocates all six arrays, distinct and zero-filled. */
    constructor (I: nat)
      ensures this.I == I && Valid() && fresh(Repr())
      ensures SignalReceive != SignalRespond && SignalReceive != ErrorReceive
      ensures SignalReceive != ErrorRespond && SignalRespond != ErrorReceive
      ensures SignalRespond != ErrorRespond && ErrorReceive != ErrorRespond
      ensures Bias[..] == Zeros(I) && DeltaBias[..] == Zeros(I)
      ensures SignalReceive[..] == Zeros(I) && SignalRespond[..] == Zeros(I)
      ensures ErrorReceive[..] == Zeros(I) && ErrorRespond[..] == Zeros(I)
    {
      this.I := I;
      Bias := new real[I](_ => 0.0);
      DeltaBias := new real[I](_ => 0.0);
      SignalReceive := new real[I](_ => 0.0);
      SignalRespond := new real[I](_ => 0.0);
      ErrorReceive := new real[I](_ => 0.0);
      ErrorRespond := new real[I](_ => 0.0);
    }

    /** SignalRespond becomes SignalReceive + Bias; the buffers may alias each other. */
    method ForwardSignal()
      requires Valid()
      modifies SignalRespond
      ensures SignalRespond[..] == Add(old(SignalReceive[..]), old(Bias[..]))
      ensures Bias[..] == old(Bias[..]) && DeltaBias[..] == old(DeltaBias[..])
    {
      for i := 0 to I
        invariant forall k :: 0 <= k < i ==> SignalRespond[k] == old(SignalReceive[k]) + old(Bias[k])
        invariant forall k :: i <= k < I ==> SignalRespond[k] == old(SignalRespond[k])
      {
        SignalRespond[i] := SignalReceive[i] + Bias[i];
      }
    }

    /**
     * ErrorRespond becomes ErrorReceive (the identity's slope is 1), and the
     * error is added to the bias accumulator, not stored over it.
     */
    method FeedBackError()
      requires Valid()
      modifies DeltaBias, ErrorRespond
      ensures ErrorRespond[..] == old(ErrorReceive[..])
      ensures DeltaBias[..] == Add(old(DeltaBias[..]), old(ErrorReceive[..]))
      ensures Bias[..] == old(Bias[..])
    {
      for i := 0 to I
        invariant forall k :: 0 <= k < i ==> ErrorRespond[k] == old(ErrorReceive[k])
        invariant forall k :: 0 <= k < i ==> DeltaBias[k] == old(DeltaBias[k]) + old(ErrorReceive[k])
        invariant forall k :: i <= k < I ==> ErrorRespond[k] == old(ErrorRespond[k])
        invariant forall k :: i <= k < I ==> DeltaBias[k] == old(DeltaBias[k])
      {
        DeltaBias[i] := DeltaBias[i] + ErrorReceive[i];
        ErrorRespond[i] := ErrorReceive[i];
      }
    }

    /**
     * Previews a step of the given gain: SignalRespond becomes what
     * ForwardSignal would give after UpdateWeight(gain, _), while the bias
     * and its accumulator stay as they are.
     */
    method UpdateGain(gain: real)
      requires Valid()
      modifies SignalRespond
      ensures SignalRespond[..] == Add(old(SignalReceive[..]), Step(Bias[..], gain, DeltaBias[..]))
      ensures Bias[..] == old(Bias[..]) && DeltaBias[..] == old(DeltaBias[..])
    {
      for i := 0 to I
        invariant forall k :: 0 <= k < i ==>
          SignalRespond[k] == old(SignalReceive[k]) + (old(Bias[k]) + gain * old(DeltaBias[k]))
        invariant forall k :: i <= k < I ==> SignalRespond[k] == old(SignalRespond[k])
      {
        SignalRespond[i] := SignalReceive[i] + (Bias[i] + gain * DeltaBias[i]);
      }
      assert Bias[..] == old(Bias[..]) && DeltaBias[..] == old(DeltaBias[..]);
      assert forall k :: 0 <= k < I ==>
        SignalRespond[..][k] == Add(old(SignalReceive[..]), Step(Bias[..], gain, DeltaBias[..]))[k];
    }

    /**
     * Commits the step: the bias moves by gain times the accumulator, and the
     * accumulator decays by the momentum factor instead of being reset.
     */
    method UpdateWeight(gain: real, momentum: real)
      requires Valid()
      modifies Bias, DeltaBias
      ensures Bias[..] == Step(old(Bias[..]), gain, old(DeltaBias[..]))
      ensures DeltaBias[..] == Scale(momentum, old(DeltaBias[..]))
      ensures momentum == 0.0 ==> DeltaBias[..] == Zeros(I)
    {
      ghost var b, d := Bias[..], DeltaBias[..];
      ghost var stepped, decayed := Step(b, gain, d), Scale(momentum, d);
      for i := 0 to I
        invariant forall k :: 0 <= k < i ==> Bias[k] == stepped[k] && DeltaBias[k] == decayed[k]
        invariant forall k :: i <= k < I ==> Bias[k] == b[k] && DeltaBias[k] == d[k]
      {
        var bi, di := Bias[i], DeltaBias[i];
        assert bi + gain * di == stepped[i] && momentum * di == decayed[i];
        Bias[i] := bi + gain * di;
        DeltaBias[i] := momentum * di;
      }
      assert forall k :: 0 <= k < I ==> Bias[..][k] == stepped[k];
      assert forall k :: 0 <= k < I ==> DeltaBias[..][k] == decayed[k];
      if momentum == 0.0 {
        assert forall k :: 0 <= k < I ==> DeltaBias[..][k] == Zeros(I)[k];
      }
    }
  }

  /**
   * A NeuralLayer whose units squash their net input with the symmetric
   * sigmoid. `Base` holds the inherited state; UpdateWeight is the base
   * layer's, unchanged. The exponential function is a parameter `exp`.
   */
  class SigmoidNeuralLayer {
    const Base: NeuralLayer

    constructor (I: nat)
      ensures fresh(Base) && fresh(Base.Repr())
      ensures Base.I == I && Base.Valid()
      ensures Base.SignalReceive != Base.SignalRespond && Base.SignalReceive != Base.ErrorReceive
      ensures Base.SignalReceive != Base.ErrorRespond && Base.SignalRespond != Base.ErrorReceive
      ensures Base.SignalRespond != Base.ErrorRespond && Base.ErrorReceive != Base.ErrorRespond
      ensures Base.Bias[..] == Zeros(I) && Base.DeltaBias[..] == Zeros(I)
      ensures Base.SignalReceive[..] == Zeros(I) && Base.SignalRespond[..] == Zeros(I)
      ensures Base.ErrorReceive[..] == Zeros(I) && Base.ErrorRespond[..] == Zeros(I)
    {
      Base := new NeuralLayer(I);
    }

    /** Output k is the sigmoid of SignalReceive[k] + Bias[k], strictly inside (-1, 1). */
    method ForwardSignal(exp: real -> real)
      requires Base.Valid()
      requires forall u :: 0.0 < exp(u)
      modifies Base.SignalRespond
      ensures forall k :: 0 <= k < Base.I ==>
        Base.SignalRespond[k] == Squash(exp, old(Base.SignalReceive[k]) + old(Base.Bias[k]))
      ensures forall k :: 0 <= k < Base.I ==> -1.0 < Base.SignalRespond[k] < 1.0
      ensures Base.Bias[..] == old(Base.Bias[..]) && Base.DeltaBias[..] == old(Base.DeltaBias[..])
    {
      for i := 0 to Base.I
        invariant forall k :: 0 <= k < i ==>
          Base.SignalRespond[k] == Squash(exp, old(Base.SignalReceive[k]) + old(Base.Bias[k]))
        invariant forall k :: i <= k < Base.I ==> Base.SignalRespond[k] == old(Base.SignalRespond[k])
      {
        Base.SignalRespond[i] := Squash(exp, Base.SignalReceive[i] + Base.Bias[i]);
      }
    }

    /**
     * ErrorRespond becomes ErrorReceive times the slope 1 - SignalRespond^2
     * read from the cached output; the result is added to the accumulator.
     */
    method FeedBackError()
      requires Base.Valid()
      modifies Base.DeltaBias, Base.ErrorRespond
      ensures Base.ErrorRespond[..] == SigmoidBackward(old(Base.ErrorReceive[..]), old(Base.SignalRespond[..]))
      ensures Base.DeltaBias[..] == Add(old(Base.DeltaBias[..]), Base.ErrorRespond[..])
      ensures Base.Bias[..] == old(Base.Bias[..])
    {
      ghost var e, o, d := Base.ErrorReceive[..], Base.SignalRespond[..], Base.DeltaBias[..];
      ghost var r := SigmoidBackward(e, o);
      for i := 0 to Base.I
        invariant forall k :: 0 <= k < i ==> Base.ErrorRespond[k] == r[k]
        invariant forall k :: 0 <= k < i ==> Base.DeltaBias[k] == d[k] + r[k]
        invariant forall k :: i <= k < Base.I ==> Base.ErrorReceive[k] == e[k] && Base.SignalRespond[k] == o[k]
        invariant forall k :: i <= k < Base.I ==> Base.DeltaBias[k] == d[k]
      {
        var v := Base.ErrorReceive[i] * (1.0 - Base.SignalRespond[i] * Base.SignalRespond[i]);
        assert v == r[i];
        Base.ErrorRespond[i] := v;
        Base.DeltaBias[i] := Base.DeltaBias[i] + v;
      }
      assert forall k :: 0 <= k < Base.I ==> Base.ErrorRespond[..][k] == r[k];
      assert forall k :: 0 <= k < Base.I ==> Base.DeltaBias[..][k] == Add(d, Base.ErrorRespond[..])[k];
    }

    /** The sigmoid of SignalReceive[k] + (Bias[k] + gain DeltaBias[k]); nothing is committed. */
    method UpdateGain(gain: real, exp: real -> real)
      requires Base.Valid()
      requires forall u :: 0.0 < exp(u)
      modifies Base.SignalRespond
      ensures forall k :: 0 <= k < Base.I ==>
        Base.SignalRespond[k]
        == Squash(exp, old(Base.SignalReceive[k]) + Step(Base.Bias[..], gain, Base.DeltaBias[..])[k])
      ensures forall k :: 0 <= k < Base.I ==> -1.0 < Base.SignalRespond[k] < 1.0
      ensures Base.Bias[..] == old(Base.Bias[..]) && Base.DeltaBias[..] == old(Base.DeltaBias[..])
    {
      ghost var net := Add(Base.SignalReceive[..], Step(Base.Bias[..], gain, Base.DeltaBias[..]));
      for i := 0 to Base.I
        invariant Base.Bias[..] == old(Base.Bias[..]) && Base.DeltaBias[..] == old(Base.DeltaBias[..])
        invariant forall k :: 0 <= k < i ==> Base.SignalRespond[k] == Squash(exp, net[k])
        invariant forall k :: i <= k < Base.I ==> Base.SignalRespond[k] == old(Base.SignalRespond[k])
      {
        var u := Base.SignalReceive[i] + (Base.Bias[i] + gain * Base.DeltaBias[i]);
        assert u == net[i];
        Base.SignalRespond[i] := Squash(exp, u);
      }
    }
  }

  /**
   * A dense layer from I inputs to J outputs with a J x I weight matrix. The
   * constructor allocates only the weights and their accumulator; the four
   * buffers are wired in from the neighbouring layers afterwards.
   */
  class SynapticLayer {
    const I: nat
    const J: nat

    var SignalReceive: array?<real>
    var ErrorRespond: array?<real>
    var ErrorReceive: array?<real>
    var SignalRespond: array?<real>
    var Weights: array2<real>
    var DeltaWeights: array2<real>

    /** Both matrices have J rows and I columns and are distinct arrays. */
    ghost predicate Valid()
      reads this
    {
      && Weights.Length0 == J && Weights.Length1 == I
      && DeltaWeights.Length0 == J && DeltaWeights.Length1 == I
      && Weights != DeltaWeights
    }

    constructor (I: nat, J: nat)
      ensures this.I == I && this.J == J && Valid()
      ensures fresh(Weights) && fresh(DeltaWeights)
      ensures Matrix(Weights) == ZeroMatrix(J, I) && Matrix(DeltaWeights) == ZeroMatrix(J, I)
      ensures SignalReceive == null && ErrorRespond == null
      ensures ErrorReceive == null && SignalRespond == null
    {
      this.I := I;
      this.J := J;
      Weights := new real[J, I]((_, _) => 0.0);
      DeltaWeights := new real[J, I]((_, _) => 0.0);
      SignalReceive, ErrorRespond := null, null;
      ErrorReceive, SignalRespond := null, null;
      new;
      assert forall j :: 0 <= j < J ==> Matrix(Weights)[j] == ZeroMatrix(J, I)[j];
      assert forall j :: 0 <= j < J ==> Matrix(DeltaWeights)[j] == ZeroMatrix(J, I)[j];
    }

    /** SignalRespond becomes Weights SignalReceive, overwritten row by row. */
    method ForwardSignal()
      requires Valid()
      requires SignalReceive != null && SignalReceive.Length == I
      requires SignalRespond != null && SignalRespond.Length == J
      requires SignalRespond != SignalReceive
      modifies SignalRespond
      ensures SignalRespond[..] == MatVec(Matrix(Weights), SignalReceive[..])
      ensures SignalReceive[..] == old(SignalReceive[..])
    {
      ghost var M := Matrix(Weights);
      ghost var x := SignalReceive[..];
      for j := 0 to J
        invariant SignalReceive[..] == x
        invariant forall k :: 0 <= k < j ==> SignalRespond[k] == Dot(x, M[k])
      {
        var sum := 0.0;
        for i := 0 to I
          invariant sum == Dot(x[..i], M[j][..i])
          invariant forall k :: 0 <= k < j ==> SignalRespond[k] == Dot(x, M[k])
        {
          DotSnoc(x, M[j], i);
          sum := sum + SignalReceive[i] * Weights[j, i];
        }
        assert x[..I] == x && M[j][..I] == M[j];
        SignalRespond[j] := sum;
      }
      assert forall k :: 0 <= k < J ==> SignalRespond[..][k] == MatVec(M, x)[k];
    }

    /**
     * ErrorRespond is first cleared and then receives the transposed product
     * Weights^T ErrorReceive; the gradient SignalReceive[i] * ErrorReceive[j]
     * of each weight is added to its accumulator.
     */
    method FeedBackError()
      requires Valid()
      requires SignalReceive != null && SignalReceive.Length == I
      requires ErrorReceive != null && ErrorReceive.Length == J
      requires ErrorRespond != null && ErrorRespond.Length == I
      requires ErrorRespond != ErrorReceive && ErrorRespond != SignalReceive
      modifies ErrorRespond, DeltaWeights
      ensures ErrorRespond[..] == TransposeVec(Matrix(Weights), ErrorReceive[..], I)
      ensures Matrix(DeltaWeights) == MatAdd(old(Matrix(DeltaWeights)), Outer(ErrorReceive[..], SignalReceive[..]), I)
      ensures SignalReceive[..] == old(SignalReceive[..]) && ErrorReceive[..] == old(ErrorReceive[..])
    {
      ghost var M := Matrix(Weights);
      ghost var x, e := SignalReceive[..], ErrorReceive[..];
      for i := 0 to I
        invariant forall k :: 0 <= k < i ==> ErrorRespond[k] == 0.0
        invariant forall r, c :: 0 <= r < J && 0 <= c < I ==> DeltaWeights[r, c] == old(DeltaWeights[r, c])
      {
        ErrorRespond[i] := 0.0;
      }
      assert ErrorRespond[..] == TransposeVec(M[..0], e[..0], I);
      for j := 0 to J
        invariant SignalReceive[..] == x && ErrorReceive[..] == e
        invariant ErrorRespond[..] == TransposeVec(M[..j], e[..j], I)
        invariant forall r, c :: 0 <= r < j && 0 <= c < I ==>
          DeltaWeights[r, c] == old(DeltaWeights[r, c]) + Outer(e, x)[r][c]
        invariant forall r, c :: j <= r < J && 0 <= c < I ==> DeltaWeights[r, c] == old(DeltaWeights[r, c])
      {
        BackwardRow(j);
        TransposeVecSnoc(M, e, I, j);
      }
      assert M[..J] == M && e[..J] == e;
      ghost var D := MatAdd(old(Matrix(DeltaWeights)), Outer(e, x), I);
      forall r | 0 <= r < J
        ensures Matrix(DeltaWeights)[r] == D[r]
      {
        assert forall c :: 0 <= c < I ==> Matrix(DeltaWeights)[r][c] == D[r][c];
      }
    }

    /**
     * The inner loop of FeedBackError for output j: ErrorRespond[i] gains
     * ErrorReceive[j] * Weights[j, i], and row j of the accumulator gains
     * SignalReceive[i] * ErrorReceive[j].
     */
    method BackwardRow(j: nat)
      requires Valid() && j < J
      requires SignalReceive != null && SignalReceive.Length == I
      requires ErrorReceive != null && ErrorReceive.Length == J
      requires ErrorRespond != null && ErrorRespond.Length == I
      requires ErrorRespond != ErrorReceive && ErrorRespond != SignalReceive
      modifies ErrorRespond, DeltaWeights
      ensures ErrorRespond[..] == Add(old(ErrorRespond[..]), Scale(ErrorReceive[j], Matrix(Weights)[j]))
      ensures forall c :: 0 <= c < I ==> DeltaWeights[j, c] == old(DeltaWeights[j, c]) + Outer(ErrorReceive[..], SignalReceive[..])[j][c]
      ensures forall r, c :: 0 <= r < J && r != j && 0 <= c < I ==> DeltaWeights[r, c] == old(DeltaWeights[r, c])
      ensures SignalReceive[..] == old(SignalReceive[..]) && ErrorReceive[..] == old(ErrorReceive[..])
    {
      for i := 0 to I
        invariant SignalReceive[..] == old(SignalReceive[..]) && ErrorReceive[..] == old(ErrorReceive[..])
        invariant forall c :: 0 <= c < i ==> ErrorRespond[c] == old(ErrorRespond[c]) + ErrorReceive[j] * Weights[j, c]
        invariant forall c :: i <= c < I ==> ErrorRespond[c] == old(ErrorRespond[c])
        invariant forall c :: 0 <= c < i ==> DeltaWeights[j, c] == old(DeltaWeights[j, c]) + Outer(ErrorReceive[..], SignalReceive[..])[j][c]
        invariant forall r, c :: 0 <= r < J && 0 <= c < I && (r != j || i <= c) ==> DeltaWeights[r, c] == old(DeltaWeights[r, c])
      {
        DeltaWeights[j, i] := DeltaWeights[j, i] + SignalReceive[i] * ErrorReceive[j];
        ErrorRespond[i] := ErrorRespond[i] + ErrorReceive[j] * Weights[j, i];
      }
      assert forall c :: 0 <= c < I ==>
        ErrorRespond[..][c] == Add(old(ErrorRespond[..]), Scale(ErrorReceive[j], Matrix(Weights)[j]))[c];
    }

    /**
     * The preview of a step as written: every output j receives the same sum
     * over i of SignalReceive[i] * (Weights[i, i] + gain * DeltaWeights[i, i]).
     * The entries read are the diagonal [i, i], not row j, and they are in
     * range only when I <= J; with J == 0 no output is written and nothing
     * is read. The weights are not changed.
     */
    method UpdateGain(gain: real)
      requires Valid() && (J == 0 || I <= J)
      requires SignalReceive != null && SignalReceive.Length == I
      requires SignalRespond != null && SignalRespond.Length == J
      requires SignalRespond != SignalReceive
      modifies SignalRespond
      ensures forall j :: 0 <= j < J ==>
        SignalRespond[j]
        == Dot(SignalReceive[..], Step(Diagonal(Matrix(Weights), I), gain, Diagonal(Matrix(DeltaWeights), I)))
      ensures SignalReceive[..] == old(SignalReceive[..])
    {
      if J > 0 {
        ghost var x := SignalReceive[..];
        ghost var s := Step(Diagonal(Matrix(Weights), I), gain, Diagonal(Matrix(DeltaWeights), I));
        DiagonalEntries(gain, s);
        for j := 0 to J
          invariant SignalReceive[..] == x
          invariant forall k :: 0 <= k < j ==> SignalRespond[k] == Dot(x, s)
        {
          var sum := DiagonalSum(gain, s);
          SignalRespond[j] := sum;
        }
      }
    }

    /** The entries of the gain-shifted diagonal, read from the arrays. */
    lemma {:induction false} DiagonalEntries(gain: real, s: seq<real>)
      requires Valid() && I <= J
      requires s == Step(Diagonal(Matrix(Weights), I), gain, Diagonal(Matrix(DeltaWeights), I))
      ensures |s| == I && forall i :: 0 <= i < I ==> s[i] == Weights[i, i] + gain * DeltaWeights[i, i]
    {
      ghost var W, D := Matrix(Weights), Matrix(DeltaWeights);
      forall i | 0 <= i < I
        ensures s[i] == Weights[i, i] + gain * DeltaWeights[i, i]
      {
        assert W[i][i] == Weights[i, i] && D[i][i] == DeltaWeights[i, i];
      }
    }

    /**
     * The inner loop of UpdateGain: the running sum over i of
     * SignalReceive[i] * (Weights[i, i] + gain * DeltaWeights[i, i]), the
     * entries of s.
     */
    method DiagonalSum(gain: real, ghost s: seq<real>) returns (sum: real)
      requires Valid() && I <= J
      requires SignalReceive != null && SignalReceive.Length == I
      requires |s| == I && forall i :: 0 <= i < I ==> s[i] == Weights[i, i] + gain * DeltaWeights[i, i]
      ensures sum == Dot(SignalReceive[..], s)
    {
      ghost var x := SignalReceive[..];
      sum := 0.0;
      for i := 0 to I
        invariant sum == Dot(x[..i], s[..i])
      {
        DotSnoc(x, s, i);
        sum := sum + SignalReceive[i] * (Weights[i, i] + gain * DeltaWeights[i, i]);
      }
      assert x[..I] == x && s[..I] == s;
    }

    /**
     * Commits the step: every weight moves by gain times its accumulated
     * gradient, and the accumulator is then multiplied by momentum, so with
     * momentum 0 it is cleared.
     */
    method UpdateWeight(gain: real, momentum: real)
      requires Valid()
      modifies Weights, DeltaWeights
      ensures Matrix(Weights) == MatStep(old(Matrix(Weights)), gain, old(Matrix(DeltaWeights)), I)
      ensures Matrix(DeltaWeights) == MatScale(momentum, old(Matrix(DeltaWeights)))
      ensures momentum == 0.0 ==> Matrix(DeltaWeights) == ZeroMatrix(J, I)
    {
      ghost var W', D' := MatStep(Matrix(Weights), gain, Matrix(DeltaWeights), I), MatScale(momentum, Matrix(DeltaWeights));
      for j := 0 to J
        invariant forall r, c :: 0 <= r < j && 0 <= c < I ==> Weights[r, c] == W'[r][c] && DeltaWeights[r, c] == D'[r][c]
        invariant forall r, c :: j <= r < J && 0 <= c < I ==>
          Weights[r, c] == old(Weights[r, c]) && DeltaWeights[r, c] == old(DeltaWeights[r, c])
      {
        for i := 0 to I
          invariant forall r, c :: 0 <= r < j && 0 <= c < I ==> Weights[r, c] == W'[r][c] && DeltaWeights[r, c] == D'[r][c]
          invariant forall c :: 0 <= c < i ==> Weights[j, c] == W'[j][c] && DeltaWeights[j, c] == D'[j][c]
          invariant forall r, c :: 0 <= r < J && 0 <= c < I && (j < r || (r == j && i <= c)) ==>
            Weights[r, c] == old(Weights[r, c]) && DeltaWeights[r, c] == old(DeltaWeights[r, c])
        {
          var w, d := Weights[j, i] + gain * DeltaWeights[j, i], momentum * DeltaWeights[j, i];
          assert w == W'[j][i] && d == D'[j][i];
          Weights[j, i] := w;
          DeltaWeights[j, i] := d;
        }
      }
      forall r | 0 <= r < J
        ensures Matrix(Weights)[r] == W'[r] && Matrix(DeltaWeights)[r] == D'[r]
      {
        assert forall c :: 0 <= c < I ==> Matrix(Weights)[r][c] == W'[r][c];
        assert forall c :: 0 <= c < I ==> Matrix(DeltaWeights)[r][c] == D'[r][c];
      }
      if momentum == 0.0 {
        MatScaleZero(old(Matrix(DeltaWeights)), I);
      }
    }
  }
}

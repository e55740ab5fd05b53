/**
 * The propagation engine and the optimizers (src/radonn/nn/optim.rs).
 *
 * The engine's passes are methods over a `SeqNet` whose layer objects are
 * mutated only by `step`; each pass is proved against a specification
 * function over the layers' states. The optimizers are classes whose
 * accumulator fields `reversed_update` and `get_step` reassign.
 */
module Optim {
  import opened Vectors
  import opened Net

  /** The additive guard in RMSProp's denominator, 1e-8. */
  const EPS: real := 0.00000001

  /** The network: an ordered sequence of layers it exclusively owns. */
  class SeqNet {
    const layers: seq<Layer>

    constructor (layers: seq<Layer>)
      ensures this.layers == layers
    {
      this.layers := layers;
    }

    /** Each layer is owned once: no layer object appears twice. */
    ghost predicate Owned()
    {
      forall i, j :: 0 <= i < j < |layers| ==> layers[i] != layers[j]
    }

    function States(): (s: seq<LayerState>)
      reads layers
      ensures |s| == |layers|
      ensures forall i :: 0 <= i < |layers| ==> s[i] == layers[i].State()
    {
      seq(|layers|, i requires 0 <= i < |layers| reads layers => layers[i].State())
    }
  }

  // ---------------------------------------------------------------------
  // Forward pass
  // ---------------------------------------------------------------------

  /** The first `k` layers' `feed_forward`, applied left to right. */
  function ForwardUpTo(ls: seq<LayerState>, x: seq<real>, exp: PosFn, k: nat): Option<seq<real>>
    requires k <= |ls|
  {
    if k == 0 then Some(x)
    else
      match ForwardUpTo(ls, x, exp, k - 1)
      case None => None
      case Some(y) => Output(ls[k - 1], y, exp)
  }

  /** A pass that gets through `k` layers got through every shorter prefix. */
  lemma {:induction false} ForwardUpToPrefix(ls: seq<LayerState>, x: seq<real>, exp: PosFn, j: nat, k: nat)
    requires j <= k <= |ls| && ForwardUpTo(ls, x, exp, k).Some?
    ensures ForwardUpTo(ls, x, exp, j).Some?
    decreases k
  {
    if j < k {
      ForwardUpToPrefix(ls, x, exp, j, k - 1);
    }
  }

  lemma ForwardUpToEveryPrefix(ls: seq<LayerState>, x: seq<real>, exp: PosFn)
    requires ForwardUpTo(ls, x, exp, |ls|).Some?
    ensures forall k :: 0 <= k <= |ls| ==> ForwardUpTo(ls, x, exp, k).Some?
  {
    forall k | 0 <= k <= |ls|
      ensures ForwardUpTo(ls, x, exp, k).Some?
    {
      ForwardUpToPrefix(ls, x, exp, k, |ls|);
    }
  }

  /**
   * `feed_forward`: None for an empty network (it indexes `layers[0]`) or a
   * layer that panics. A result means every layer ran, and it is the last
   * layer's output on what the layers before it computed.
   */
  function Compose(ls: seq<LayerState>, x: seq<real>, exp: PosFn): (r: Option<seq<real>>)
    ensures |ls| == 0 ==> r.None?
    ensures r.Some? ==> forall k :: 0 <= k <= |ls| ==> ForwardUpTo(ls, x, exp, k).Some?
  {
    if |ls| == 0 then None
    else
      var r := ForwardUpTo(ls, x, exp, |ls|);
      if r.Some? then ForwardUpToEveryPrefix(ls, x, exp); r else r
  }

  /** Appending layers does not change what the earlier layers compute. */
  lemma {:induction false} ForwardUpToExtend(ls: seq<LayerState>, more: seq<LayerState>, x: seq<real>, exp: PosFn, k: nat)
    requires k <= |ls|
    ensures ForwardUpTo(ls + more, x, exp, k) == ForwardUpTo(ls, x, exp, k)
  {
    if k > 0 {
      ForwardUpToExtend(ls, more, x, exp, k - 1);
      assert (ls + more)[k - 1] == ls[k - 1];
    }
  }

  /** Running two networks one after the other is running their concatenation. */
  lemma {:induction false} ForwardUpToAppend(ls: seq<LayerState>, more: seq<LayerState>, x: seq<real>, exp: PosFn, k: nat)
    requires k <= |more|
    ensures ForwardUpTo(ls + more, x, exp, |ls| + k) ==
      match ForwardUpTo(ls, x, exp, |ls|)
      case None => None
      case Some(y) => ForwardUpTo(more, y, exp, k)
  {
    if k == 0 {
      ForwardUpToExtend(ls, more, x, exp, |ls|);
    } else {
      ForwardUpToAppend(ls, more, x, exp, k - 1);
      assert (ls + more)[|ls| + k - 1] == more[k - 1];
    }
  }

  /** `feed_forward`: layer 0 on the input, then every later layer on the previous output. */
  method FeedForward(input: seq<real>, net: SeqNet, exp: PosFn) returns (out: seq<real>)
    requires Compose(net.States(), input, exp).Some?
    ensures out == Compose(net.States(), input, exp).value
  {
    ghost var ls := net.States();
    ForwardUpToPrefix(ls, input, exp, 1, |ls|);
    out := net.layers[0].FeedForward(input, exp);
    var layer := 1;
    while layer < |net.layers|
      invariant 1 <= layer <= |net.layers|
      invariant ForwardUpTo(ls, input, exp, layer) == Some(out)
    {
      ForwardUpToPrefix(ls, input, exp, layer + 1, |ls|);
      out := net.layers[layer].FeedForward(out, exp);
      layer := layer + 1;
    }
  }

  // ---------------------------------------------------------------------
  // Training pass
  // ---------------------------------------------------------------------

  /** What the forward half of a training pass records: each layer's input and cache, and the output. */
  datatype Trace = Trace(ins: seq<seq<real>>, caches: seq<seq<real>>, out: seq<real>)

  /** The forward half after `k` layers of `d_feed_forward`. */
  function TraceUpTo(ls: seq<LayerState>, x: seq<real>, exp: PosFn, k: nat): (r: Option<Trace>)
    requires k <= |ls|
    ensures r.Some? ==> |r.value.ins| == k && |r.value.caches| == k
  {
    if k == 0 then Some(Trace([], [], x))
    else
      match TraceUpTo(ls, x, exp, k - 1)
      case None => None
      case Some(t) =>
        match OutputWithCache(ls[k - 1], t.out, exp)
        case None => None
        case Some(p) => Some(Trace(t.ins + [t.out], t.caches + [p.1], p.0))
  }

  lemma {:induction false} TraceUpToPrefix(ls: seq<LayerState>, x: seq<real>, exp: PosFn, j: nat, k: nat)
    requires j <= k <= |ls| && TraceUpTo(ls, x, exp, k).Some?
    ensures TraceUpTo(ls, x, exp, j).Some?
    ensures TraceUpTo(ls, x, exp, j).value.ins == TraceUpTo(ls, x, exp, k).value.ins[..j]
    ensures TraceUpTo(ls, x, exp, j).value.caches == TraceUpTo(ls, x, exp, k).value.caches[..j]
    decreases k
  {
    if j < k {
      TraceUpToPrefix(ls, x, exp, j, k - 1);
      var t := TraceUpTo(ls, x, exp, k - 1).value;
      assert TraceUpTo(ls, x, exp, k).value.ins[..k - 1] == t.ins;
      assert TraceUpTo(ls, x, exp, k).value.caches[..k - 1] == t.caches;
    }
  }

  /**
   * The recorded inputs: ins[0] is the input, ins[i] is what layer i - 1
   * produced from ins[i - 1]; caches[i] is layer i's derivative cache on
   * ins[i]; and the final output is what the last layer produced.
   */
  lemma {:induction false} TraceShape(ls: seq<LayerState>, x: seq<real>, exp: PosFn, k: nat)
    requires 0 < k <= |ls| && TraceUpTo(ls, x, exp, k).Some?
    ensures var t := TraceUpTo(ls, x, exp, k).value;
      && t.ins[0] == x
      && (forall i :: 0 <= i < k ==>
            OutputWithCache(ls[i], t.ins[i], exp).Some? &&
            t.caches[i] == OutputWithCache(ls[i], t.ins[i], exp).value.1)
      && (forall i :: 0 < i < k ==> t.ins[i] == OutputWithCache(ls[i - 1], t.ins[i - 1], exp).value.0)
      && t.out == OutputWithCache(ls[k - 1], t.ins[k - 1], exp).value.0
  {
    var t := TraceUpTo(ls, x, exp, k).value;
    if k > 1 {
      TraceShape(ls, x, exp, k - 1);
      var s := TraceUpTo(ls, x, exp, k - 1).value;
      assert t.ins == s.ins + [s.out] && t.caches[..k - 1] == s.caches;
    }
  }

  /** The forward half of a training pass fails where inference fails and otherwise ends at the same output. */
  lemma {:induction false} TraceAgreesWithForward(ls: seq<LayerState>, x: seq<real>, exp: PosFn, k: nat)
    requires k <= |ls|
    ensures TraceUpTo(ls, x, exp, k).Some? <==> ForwardUpTo(ls, x, exp, k).Some?
    ensures TraceUpTo(ls, x, exp, k).Some? ==> TraceUpTo(ls, x, exp, k).value.out == ForwardUpTo(ls, x, exp, k).value
  {
    if k > 0 {
      TraceAgreesWithForward(ls, x, exp, k - 1);
      if TraceUpTo(ls, x, exp, k - 1).Some? {
        TraceStepAgrees(ls, x, exp, k, TraceUpTo(ls, x, exp, k - 1).value);
      }
    }
  }

  /** One more layer keeps the training pass and inference in step. */
  lemma TraceStepAgrees(ls: seq<LayerState>, x: seq<real>, exp: PosFn, k: nat, t: Trace)
    requires 0 < k <= |ls|
    requires TraceUpTo(ls, x, exp, k - 1) == Some(t) && ForwardUpTo(ls, x, exp, k - 1) == Some(t.out)
    ensures TraceUpTo(ls, x, exp, k).Some? <==> ForwardUpTo(ls, x, exp, k).Some?
    ensures TraceUpTo(ls, x, exp, k).Some? ==> TraceUpTo(ls, x, exp, k).value.out == ForwardUpTo(ls, x, exp, k).value
  {
    OutputWithCacheAgrees(ls[k - 1], t.out, exp);
  }

  /** `output - expected`, one entry per expected value; None where `out` is too short. */
  function OutputError(out: seq<real>, expected: seq<real>): (r: Option<seq<real>>)
    ensures r.Some? <==> |out| >= |expected|
    ensures r.Some? ==> |r.value| == |expected|
    ensures r.Some? ==> forall i :: 0 <= i < |expected| ==> r.value[i] == out[i] - expected[i]
  {
    if |out| >= |expected| then Some(seq(|expected|, i requires 0 <= i < |expected| => out[i] - expected[i]))
    else None
  }

  /**
   * The backward half after `k` steps from the last layer: the gradients
   * collected so far (last layer first) and the error now flowing back.
   */
  function BackwardUpTo(ls: seq<LayerState>, t: Trace, e0: seq<real>, k: nat): (r: Option<(seq<seq<real>>, seq<real>)>)
    requires |t.ins| == |ls| && |t.caches| == |ls| && k <= |ls|
    ensures r.Some? ==> |r.value.0| == k
  {
    if k == 0 then Some(([], e0))
    else
      match BackwardUpTo(ls, t, e0, k - 1)
      case None => None
      case Some(r) =>
        var i := |ls| - k;
        match InputError(ls[i], r.1, t.caches[i])
        case None => None
        case Some(e) => Some((r.0 + [ParamGrad(ls[i], r.1, t.ins[i])], e))
  }

  /** One more step of the backward walk: the gradient of layer |ls| - 1 - k on the current error, then the error through it. */
  lemma BackwardNext(ls: seq<LayerState>, t: Trace, e0: seq<real>, k: nat)
    requires |t.ins| == |ls| && |t.caches| == |ls| && k < |ls|
    requires BackwardUpTo(ls, t, e0, k + 1).Some?
    ensures BackwardUpTo(ls, t, e0, k).Some?
    ensures var prev := BackwardUpTo(ls, t, e0, k).value;
      var i := |ls| - 1 - k;
      InputError(ls[i], prev.1, t.caches[i]).Some? &&
      BackwardUpTo(ls, t, e0, k + 1).value ==
        (prev.0 + [ParamGrad(ls[i], prev.1, t.ins[i])], InputError(ls[i], prev.1, t.caches[i]).value)
  {
  }

  lemma {:induction false} BackwardUpToPrefix(ls: seq<LayerState>, t: Trace, e0: seq<real>, j: nat, k: nat)
    requires |t.ins| == |ls| && |t.caches| == |ls| && j <= k <= |ls|
    requires BackwardUpTo(ls, t, e0, k).Some?
    ensures BackwardUpTo(ls, t, e0, j).Some?
    decreases k
  {
    if j < k {
      BackwardUpToPrefix(ls, t, e0, j, k - 1);
    }
  }

  /**
   * errors[j] is the `calc_err` of layer |ls| - 1 - j, taken on that
   * layer's recorded input and on the error propagated back through all
   * later layers.
   */
  lemma {:induction false} BackwardShape(ls: seq<LayerState>, t: Trace, e0: seq<real>, k: nat)
    requires |t.ins| == |ls| && |t.caches| == |ls| && k <= |ls|
    requires BackwardUpTo(ls, t, e0, k).Some?
    ensures |BackwardUpTo(ls, t, e0, k).value.0| == k
    ensures forall j :: 0 <= j < k ==>
      BackwardUpTo(ls, t, e0, j).Some? &&
      BackwardUpTo(ls, t, e0, k).value.0[j] ==
        ParamGrad(ls[|ls| - 1 - j], BackwardUpTo(ls, t, e0, j).value.1, t.ins[|ls| - 1 - j])
  {
    if k > 0 {
      BackwardShape(ls, t, e0, k - 1);
      var prev := BackwardUpTo(ls, t, e0, k - 1).value;
      assert BackwardUpTo(ls, t, e0, k).value.0[..k - 1] == prev.0;
    }
  }

  /** The gradients a training pass hands to the optimizer; None where the engine panics. */
  function TrainGradients(ls: seq<LayerState>, x: seq<real>, expected: seq<real>, exp: PosFn): (r: Option<seq<seq<real>>>)
    ensures r.Some? ==> |r.value| == |ls|
  {
    if |ls| == 0 then None
    else
      match TraceUpTo(ls, x, exp, |ls|)
      case None => None
      case Some(t) =>
        match OutputError(t.out, expected)
        case None => None
        case Some(e) =>
          match BackwardUpTo(ls, t, e, |ls|)
          case None => None
          case Some(r) => Some(r.0)
  }

  /** The forward loop of `back_propagate`: `d_feed_forward` through every layer, recording inputs and caches. */
  method ForwardRecord(input: seq<real>, net: SeqNet, exp: PosFn) returns (ins: seq<seq<real>>, cache: seq<seq<real>>, out: seq<real>)
    requires |net.layers| > 0 && TraceUpTo(net.States(), input, exp, |net.layers|).Some?
    ensures TraceUpTo(net.States(), input, exp, |net.layers|) == Some(Trace(ins, cache, out))
  {
    ghost var ls := net.States();
    var n := |net.layers|;
    TraceUpToPrefix(ls, input, exp, 1, n);
    var r := net.layers[0].DFeedForward(input, exp);
    out := r.0;
    cache := [r.1];
    ins := [input];
    assert TraceUpTo(ls, input, exp, 0) == Some(Trace([], [], input));
    assert [] + [input] == ins && [] + [r.1] == cache;
    var layer := 1;
    while layer < n
      invariant 1 <= layer <= n
      invariant TraceUpTo(ls, input, exp, layer) == Some(Trace(ins, cache, out))
    {
      TraceUpToPrefix(ls, input, exp, layer + 1, n);
      ins := ins + [out];
      r := net.layers[layer].DFeedForward(out, exp);
      out := r.0;
      cache := cache + [r.1];
      layer := layer + 1;
    }
  }

  /** The backward loop of `back_propagate`: each layer's gradient, last layer first, while the error flows back. */
  method BackwardCollect(net: SeqNet, ghost t: Trace, ins: seq<seq<real>>, cache: seq<seq<real>>, outErr: seq<real>)
    returns (errors: seq<seq<real>>)
    requires ins == t.ins && cache == t.caches && |ins| == |cache| == |net.layers|
    requires BackwardUpTo(net.States(), t, outErr, |net.layers|).Some?
    ensures errors == BackwardUpTo(net.States(), t, outErr, |net.layers|).value.0
  {
    ghost var ls := net.States();
    var n := |net.layers|;
    var err := outErr;
    errors := [];
    var layer := 0;
    while layer < n
      invariant 0 <= layer <= n
      invariant BackwardUpTo(ls, t, outErr, layer) == Some((errors, err))
    {
      BackwardUpToPrefix(ls, t, outErr, layer + 1, n);
      BackwardNext(ls, t, outErr, layer);
      var idx := n - layer - 1;
      var g := net.layers[idx].CalcErr(err, ins[idx]);
      errors := errors + [g];
      err := net.layers[idx].BackPropagate(err, cache[idx]);
      layer := layer + 1;
    }
  }

  /** A training pass that succeeds is a trace, an output error and a backward walk, each of which succeeds. */
  lemma TrainGradientsSplit(ls: seq<LayerState>, x: seq<real>, expected: seq<real>, exp: PosFn)
    requires TrainGradients(ls, x, expected, exp).Some?
    ensures |ls| > 0 && TraceUpTo(ls, x, exp, |ls|).Some?
    ensures var t := TraceUpTo(ls, x, exp, |ls|).value;
      OutputError(t.out, expected).Some? &&
      BackwardUpTo(ls, t, OutputError(t.out, expected).value, |ls|).Some? &&
      TrainGradients(ls, x, expected, exp).value == BackwardUpTo(ls, t, OutputError(t.out, expected).value, |ls|).value.0
  {
  }

  /** The loop of `back_propagate` that forms `out - expected`. */
  method OutputErrorOf(out: seq<real>, expected: seq<real>) returns (outErr: seq<real>)
    requires |out| >= |expected|
    ensures Some(outErr) == OutputError(out, expected)
  {
    outErr := [];
    var i := 0;
    while i < |expected|
      invariant 0 <= i <= |expected| && |outErr| == i
      invariant forall k :: 0 <= k < i ==> outErr[k] == out[k] - expected[k]
    {
      outErr := outErr + [out[i] - expected[i]];
      i := i + 1;
    }
    assert outErr == OutputError(out, expected).value;
  }

  /**
   * `back_propagate` up to the hand-over to the optimizer: the forward loop,
   * the output error, and the backward loop.
   */
  method Gradients(input: seq<real>, expected: seq<real>, net: SeqNet, exp: PosFn) returns (errors: seq<seq<real>>)
    requires TrainGradients(net.States(), input, expected, exp).Some?
    ensures errors == TrainGradients(net.States(), input, expected, exp).value
  {
    TrainGradientsSplit(net.States(), input, expected, exp);
    var ins, cache, out := ForwardRecord(input, net, exp);
    ghost var t := Trace(ins, cache, out);
    var outErr := OutputErrorOf(out, expected);
    errors := BackwardCollect(net, t, ins, cache, outErr);
  }

  // ---------------------------------------------------------------------
  // Loss
  // ---------------------------------------------------------------------

  /**
   * The sum of squared differences between the first `n` outputs and the
   * expected values of example `i`. Like the inner loop of `loss`, it reads
   * `expectedOuts[i]` only when there is an output to compare.
   */
  function SquaredError(out: seq<real>, expectedOuts: seq<seq<real>>, i: nat, n: nat): (r: real)
    requires n <= |out| && (n > 0 ==> i < |expectedOuts| && n <= |expectedOuts[i]|)
    ensures r >= 0.0
    ensures n > 0 && (forall j :: 0 <= j < n ==> out[j] == expectedOuts[i][j]) ==> r == 0.0
  {
    if n == 0 then 0.0
    else
      var d := out[n - 1] - expectedOuts[i][n - 1];
      SquareNonNegative(d);
      SquaredError(out, expectedOuts, i, n - 1) + Square(d)
  }

  /** A zero squared error means every output matched its expected value. */
  lemma {:induction false} SquaredErrorZeroOnlyIfExact(out: seq<real>, expectedOuts: seq<seq<real>>, i: nat, n: nat)
    requires n <= |out| && (n > 0 ==> i < |expectedOuts| && n <= |expectedOuts[i]|)
    requires SquaredError(out, expectedOuts, i, n) == 0.0
    ensures n > 0 ==> forall j :: 0 <= j < n ==> out[j] == expectedOuts[i][j]
  {
    if n > 0 {
      var d := out[n - 1] - expectedOuts[i][n - 1];
      SquareNonNegative(d);
      SquaredErrorZeroOnlyIfExact(out, expectedOuts, i, n - 1);
      SquareZero(d);
    }
  }

  /**
   * `loss` runs without a panic: every example passes forward, and an
   * example with a non-empty output has an expected vector at least as long.
   */
  predicate LossDefined(ls: seq<LayerState>, ins: seq<seq<real>>, expectedOuts: seq<seq<real>>, exp: PosFn)
  {
    forall i :: 0 <= i < |ins| ==>
      Compose(ls, ins[i], exp).Some? &&
      (|Compose(ls, ins[i], exp).value| > 0 ==>
         i < |expectedOuts| && |Compose(ls, ins[i], exp).value| <= |expectedOuts[i]|)
  }

  /** The loss over the first `k` examples: a sum of squares, so never negative. */
  function LossUpTo(ls: seq<LayerState>, ins: seq<seq<real>>, expectedOuts: seq<seq<real>>, exp: PosFn, k: nat): (r: real)
    requires LossDefined(ls, ins, expectedOuts, exp) && k <= |ins|
    ensures r >= 0.0
  {
    if k == 0 then 0.0
    else
      var out := Compose(ls, ins[k - 1], exp).value;
      LossUpTo(ls, ins, expectedOuts, exp, k - 1) + SquaredError(out, expectedOuts, k - 1, |out|)
  }

  /**
   * An example whose output is empty adds nothing and needs no expected
   * vector: a network of one empty Bias layer has loss 0 on one empty input
   * with no expected outputs at all.
   */
  lemma EmptyOutputNeedsNoExpected(exp: PosFn)
    ensures LossDefined([LayerState(Bias, [])], [[]], [], exp)
    ensures LossUpTo([LayerState(Bias, [])], [[]], [], exp, 1) == 0.0
  {
    var ls := [LayerState(Bias, [])];
    assert ForwardUpTo(ls, [], exp, 1) == Some([]);
  }

  /** The inner loop of `loss`: example `i`'s squared errors added to the running total. */
  method AddSquaredErrors(error: real, output: seq<real>, expectedOuts: seq<seq<real>>, i: nat) returns (total: real)
    requires |output| > 0 ==> i < |expectedOuts| && |output| <= |expectedOuts[i]|
    ensures total == error + SquaredError(output, expectedOuts, i, |output|)
  {
    total := error;
    var j := 0;
    while j < |output|
      invariant 0 <= j <= |output|
      invariant total == error + SquaredError(output, expectedOuts, i, j)
    {
      total := total + Square(output[j] - expectedOuts[i][j]);
      j := j + 1;
    }
  }

  method Loss(ins: seq<seq<real>>, expectedOuts: seq<seq<real>>, net: SeqNet, exp: PosFn) returns (error: real)
    requires LossDefined(net.States(), ins, expectedOuts, exp)
    ensures error == LossUpTo(net.States(), ins, expectedOuts, exp, |ins|)
    ensures error >= 0.0
  {
    ghost var ls := net.States();
    error := 0.0;
    var i := 0;
    while i < |ins|
      invariant 0 <= i <= |ins|
      invariant error == LossUpTo(ls, ins, expectedOuts, exp, i)
    {
      LossUpToNext(ls, ins, expectedOuts, exp, i);
      var output := FeedForward(ins[i], net, exp);
      error := AddSquaredErrors(error, output, expectedOuts, i);
      i := i + 1;
    }
  }

  /** One more example adds its squared error, and that example can be read. */
  lemma LossUpToNext(ls: seq<LayerState>, ins: seq<seq<real>>, expectedOuts: seq<seq<real>>, exp: PosFn, k: nat)
    requires LossDefined(ls, ins, expectedOuts, exp) && k < |ins|
    ensures Compose(ls, ins[k], exp).Some?
    ensures var out := Compose(ls, ins[k], exp).value;
      (|out| > 0 ==> k < |expectedOuts| && |out| <= |expectedOuts[k]|) &&
      LossUpTo(ls, ins, expectedOuts, exp, k + 1) ==
        LossUpTo(ls, ins, expectedOuts, exp, k) + SquaredError(out, expectedOuts, k, |out|)
  {
  }

  // ---------------------------------------------------------------------
  // Optimizer state: shared specification
  // ---------------------------------------------------------------------

  /** One zero accumulator per layer, as long as its `param_num`. */
  function ZeroCaches(ls: seq<LayerState>): (c: seq<seq<real>>)
    ensures |c| == |ls| && AllZero(c)
    ensures forall i :: 0 <= i < |ls| ==> |c[i]| == ParamCount(ls[i])
  {
    seq(|ls|, i requires 0 <= i < |ls| => Zeros(ParamCount(ls[i])))
  }

  /** The loop every optimizer constructor runs. */
  method NewCaches(net: SeqNet) returns (cache: seq<seq<real>>)
    ensures cache == ZeroCaches(net.States())
  {
    cache := [];
    var i := 0;
    while i < |net.layers|
      invariant 0 <= i <= |net.layers| && |cache| == i
      invariant forall k :: 0 <= k < i ==> cache[k] == Zeros(net.layers[k].ParamNum())
    {
      cache := cache + [Zeros(net.layers[i].ParamNum())];
      i := i + 1;
    }
  }

  /** One accumulator row plus `scale` times a gradient, as far as both reach. */
  function AddScaled(c: seq<real>, g: seq<real>, scale: real): (r: seq<real>)
    ensures |r| == |c|
  {
    seq(|c|, j requires 0 <= j < |c| => if j < |g| then c[j] + g[j] * scale else c[j])
  }

  /**
   * `reversed_update`: accumulator i absorbs errors[|errors| - 1 - i], the
   * gradient of layer i when the errors come last-layer-first.
   */
  function Accumulated(cache: seq<seq<real>>, errors: seq<seq<real>>, scale: real): (r: seq<seq<real>>)
    requires |errors| <= |cache|
    ensures Shape(r) == Shape(cache)
  {
    seq(|cache|, i requires 0 <= i < |cache| =>
      if i < |errors| then AddScaled(cache[i], errors[|errors| - 1 - i], scale) else cache[i])
  }

  /** The loop of `reversed_update`, with the scale each optimizer applies. */
  method ReversedAdd(cache: seq<seq<real>>, errors: seq<seq<real>>, scale: real) returns (updated: seq<seq<real>>)
    requires |errors| <= |cache|
    ensures updated == Accumulated(cache, errors, scale)
  {
    updated := cache;
    var i := 0;
    while i < |errors|
      invariant 0 <= i <= |errors| && |updated| == |cache|
      invariant forall k :: 0 <= k < |cache| ==>
        updated[k] == if k < i then AddScaled(cache[k], errors[|errors| - 1 - k], scale) else cache[k]
    {
      var actInd := |errors| - i - 1;
      var row := updated[i];
      var j := 0;
      while j < |row| && j < |errors[actInd]|
        invariant 0 <= j <= |row| == |cache[i]| && j <= |errors[actInd]|
        invariant forall t :: 0 <= t < |row| ==>
          row[t] == if t < j then cache[i][t] + errors[actInd][t] * scale else cache[i][t]
      {
        row := row[j := row[j] + errors[actInd][j] * scale];
        j := j + 1;
      }
      forall t | 0 <= t < |row|
        ensures row[t] == AddScaled(cache[i], errors[actInd], scale)[t]
      {
      }
      updated := updated[i := row];
      i := i + 1;
    }
  }

  /** The elementwise sum of two gradient collections of one shape. */
  function SumGrads(e1: seq<seq<real>>, e2: seq<seq<real>>): (r: seq<seq<real>>)
    requires Shape(e1) == Shape(e2)
    ensures Shape(r) == Shape(e1)
  {
    seq(|e1|, k requires 0 <= k < |e1| =>
      seq(|e1[k]|, j requires 0 <= j < |e1[k]| => e1[k][j] + e2[k][j]))
  }

  /** One accumulator row absorbing two gradients in turn absorbs their sum. */
  lemma AddScaledTwice(c: seq<real>, g1: seq<real>, g2: seq<real>, g: seq<real>, scale: real)
    requires |g1| == |g2| == |g|
    requires forall j :: 0 <= j < |g| ==> g[j] == g1[j] + g2[j]
    ensures AddScaled(AddScaled(c, g1, scale), g2, scale) == AddScaled(c, g, scale)
  {
    forall j | 0 <= j < |c| && j < |g|
      ensures AddScaled(AddScaled(c, g1, scale), g2, scale)[j] == AddScaled(c, g, scale)[j]
    {
      SumScaled(c[j], g1[j], g2[j], scale);
    }
  }

  /**
   * Two `reversed_update` calls equal one with the summed gradients:
   * accumulation sums, it does not average.
   */
  lemma AccumulateTwiceIsSum(cache: seq<seq<real>>, e1: seq<seq<real>>, e2: seq<seq<real>>, scale: real)
    requires |e1| <= |cache| && Shape(e1) == Shape(e2)
    ensures Accumulated(Accumulated(cache, e1, scale), e2, scale) == Accumulated(cache, SumGrads(e1, e2), scale)
  {
    var once := Accumulated(cache, e1, scale);
    var sum := SumGrads(e1, e2);
    var n := |e1|;
    forall i | 0 <= i < n
      ensures Accumulated(once, e2, scale)[i] == Accumulated(cache, sum, scale)[i]
    {
      var k := n - 1 - i;
      assert |e1[k]| == Shape(e1)[k] == Shape(e2)[k] == |e2[k]|;
      AddScaledTwice(cache[i], e1[k], e2[k], sum[k], scale);
    }
  }

  /**
   * Fed the gradients the backward walk collects, accumulator i absorbs the
   * gradient of layer i itself: the reversal of `act_ind = len - i - 1`
   * undoes the last-layer-first order of the backward walk.
   */
  lemma AccumulatorMeetsItsLayer(ls: seq<LayerState>, t: Trace, e0: seq<real>, cache: seq<seq<real>>, scale: real, i: nat)
    requires |t.ins| == |ls| && |t.caches| == |ls| && |ls| <= |cache| && i < |ls|
    requires BackwardUpTo(ls, t, e0, |ls|).Some?
    ensures BackwardUpTo(ls, t, e0, |ls| - 1 - i).Some?
    ensures Accumulated(cache, BackwardUpTo(ls, t, e0, |ls|).value.0, scale)[i] ==
      AddScaled(cache[i], ParamGrad(ls[i], BackwardUpTo(ls, t, e0, |ls| - 1 - i).value.1, t.ins[i]), scale)
  {
    BackwardShape(ls, t, e0, |ls|);
    var errors := BackwardUpTo(ls, t, e0, |ls|).value.0;
    var j := |ls| - 1 - i;
    assert errors[j] == ParamGrad(ls[i], BackwardUpTo(ls, t, e0, j).value.1, t.ins[i]);
    assert Accumulated(cache, errors, scale)[i] == AddScaled(cache[i], errors[j], scale);
  }

  /** The momentum / second-moment update: acc * a + g * b, row by row. */
  function Decayed(acc: seq<seq<real>>, g: seq<seq<real>>, a: real, b: real): (r: seq<seq<real>>)
    requires |g| >= |acc|
    ensures Shape(r) == Shape(acc)
  {
    seq(|acc|, i requires 0 <= i < |acc| =>
      seq(|acc[i]|, j requires 0 <= j < |acc[i]| =>
        if j < |g[i]| then acc[i][j] * a + g[i][j] * b else acc[i][j]))
  }

  /** The loop `mc = mc * a + m * b` of Momentum's and RMSProp's `get_step`. */
  method DecayInPlace(acc: seq<seq<real>>, g: seq<seq<real>>, a: real, b: real) returns (r: seq<seq<real>>)
    requires |g| >= |acc|
    ensures r == Decayed(acc, g, a, b)
  {
    r := acc;
    var i := 0;
    while i < |acc|
      invariant 0 <= i <= |acc| && |r| == |acc|
      invariant forall k :: 0 <= k < |acc| ==> r[k] == if k < i then Decayed(acc, g, a, b)[k] else acc[k]
    {
      var row := r[i];
      var j := 0;
      while j < |row| && j < |g[i]|
        invariant 0 <= j <= |row| == |acc[i]| && j <= |g[i]|
        invariant forall t :: 0 <= t < |row| ==>
          row[t] == if t < j then acc[i][t] * a + g[i][t] * b else acc[i][t]
      {
        row := row[j := row[j] * a + g[i][j] * b];
        j := j + 1;
      }
      forall t | 0 <= t < |row|
        ensures row[t] == Decayed(acc, g, a, b)[i][t]
      {
      }
      r := r[i := row];
      i := i + 1;
    }
  }

  /** Every accumulator replaced by zeros of its own length. */
  method ZeroInPlace(cache: seq<seq<real>>) returns (r: seq<seq<real>>)
    ensures r == Zeroed(cache)
  {
    r := cache;
    var i := 0;
    while i < |r|
      invariant 0 <= i <= |r| == |cache|
      invariant forall k :: 0 <= k < |r| ==> r[k] == if k < i then Zeros(|cache[k]|) else cache[k]
    {
      r := r[i := Zeros(|r[i]|)];
      i := i + 1;
    }
  }

  function Squares(c: seq<seq<real>>): (r: seq<seq<real>>)
    ensures Shape(r) == Shape(c)
  {
    seq(|c|, i requires 0 <= i < |c| =>
      seq(|c[i]|, j requires 0 <= j < |c[i]| => c[i][j] * c[i][j]))
  }

  /** RMSProp's step: c0 / (sqrt(c1) + EPS) * lr, as far as both rows reach. */
  function RmsSteps(c0: seq<seq<real>>, c1: seq<seq<real>>, lr: real, sqrt: NonNegFn): (r: seq<seq<real>>)
    requires |c1| >= |c0|
    ensures |r| == |c0|
    ensures forall i :: 0 <= i < |c0| ==> |r[i]| == Min(|c0[i]|, |c1[i]|)
  {
    seq(|c0|, i requires 0 <= i < |c0| =>
      seq(Min(|c0[i]|, |c1[i]|), j requires 0 <= j < Min(|c0[i]|, |c1[i]|) =>
        c0[i][j] / (sqrt(c1[i][j]) + EPS) * lr))
  }

  /** The push loops building RMSProp's return value. */
  method RmsStepsOf(c0: seq<seq<real>>, c1: seq<seq<real>>, lr: real, sqrt: NonNegFn) returns (ret: seq<seq<real>>)
    requires |c1| >= |c0|
    ensures ret == RmsSteps(c0, c1, lr, sqrt)
  {
    ret := [];
    var i := 0;
    while i < |c0|
      invariant 0 <= i <= |c0| && |ret| == i
      invariant forall k :: 0 <= k < i ==> ret[k] == RmsSteps(c0, c1, lr, sqrt)[k]
    {
      var row := [];
      var j := 0;
      while j < |c0[i]| && j < |c1[i]|
        invariant 0 <= j <= Min(|c0[i]|, |c1[i]|) && |row| == j
        invariant forall t :: 0 <= t < j ==> row[t] == c0[i][t] / (sqrt(c1[i][t]) + EPS) * lr
      {
        row := row + [c0[i][j] / (sqrt(c1[i][j]) + EPS) * lr];
        j := j + 1;
      }
      forall t | 0 <= t < |row|
        ensures row[t] == RmsSteps(c0, c1, lr, sqrt)[i][t]
      {
      }
      ret := ret + [row];
      i := i + 1;
    }
  }

  // ---------------------------------------------------------------------
  // The optimizers
  // ---------------------------------------------------------------------

  /** Plain gradient descent: one transient accumulator. */
  class SGD {
    const lr: real
    var cache: seq<seq<real>>

    constructor (net: SeqNet, lr: real)
      ensures this.lr == lr && cache == ZeroCaches(net.States())
    {
      var c := NewCaches(net);
      this.lr, cache := lr, c;
    }

    method ReversedUpdate(errors: seq<seq<real>>)
      requires |errors| <= |cache|
      modifies this
      ensures cache == Accumulated(old(cache), errors, lr)
    {
      cache := ReversedAdd(cache, errors, lr);
    }

    /** Returns the accumulated step and drains the accumulator. */
    method GetStep() returns (steps: seq<seq<real>>)
      modifies this
      ensures steps == old(cache)
      ensures cache == Zeroed(old(cache))
    {
      steps := cache;
      cache := ZeroInPlace(cache);
    }
  }

  /** Gradient descent with momentum: a transient accumulator and a persistent momentum. */
  class SGDwMomentum {
    const lr: real
    const mom0: real
    const mom1: real
    var cache: seq<seq<real>>
    var momCache: seq<seq<real>>

    ghost predicate Valid()
      reads this
    {
      Shape(cache) == Shape(momCache)
    }

    constructor (net: SeqNet, lr: real, mom: real)
      ensures Valid()
      ensures this.lr == lr && mom0 == mom && mom1 == 1.0 - mom
      ensures cache == ZeroCaches(net.States()) && momCache == cache
    {
      var c := NewCaches(net);
      this.lr, mom0, mom1 := lr, mom, 1.0 - mom;
      momCache, cache := c, c;
    }

    method ReversedUpdate(errors: seq<seq<real>>)
      requires Valid() && |errors| <= |cache|
      modifies this
      ensures Valid()
      ensures cache == Accumulated(old(cache), errors, lr) && momCache == old(momCache)
    {
      cache := ReversedAdd(cache, errors, lr);
    }

    /** Folds the accumulator into the momentum, returns the momentum, drains the accumulator. */
    method GetStep() returns (steps: seq<seq<real>>)
      requires Valid()
      modifies this
      ensures Valid()
      ensures momCache == Decayed(old(momCache), old(cache), mom0, mom1)
      ensures steps == momCache
      ensures cache == Zeroed(old(cache))
    {
      momCache := DecayInPlace(momCache, cache, mom0, mom1);
      steps := momCache;
      cache := ZeroInPlace(cache);
    }
  }

  /** RMSProp: a transient gradient sum and a persistent second moment. */
  class RMSProp {
    const lr: real
    const beta0: real
    const beta1: real
    var cache0: seq<seq<real>>
    var cache1: seq<seq<real>>

    ghost predicate Valid()
      reads this
    {
      Shape(cache0) == Shape(cache1)
    }

    constructor (net: SeqNet, lr: real, beta: real)
      ensures Valid()
      ensures this.lr == lr && beta0 == beta && beta1 == 1.0 - beta
      ensures cache0 == ZeroCaches(net.States()) && cache1 == cache0
    {
      var c := NewCaches(net);
      this.lr, beta0, beta1 := lr, beta, 1.0 - beta;
      cache0, cache1 := c, c;
    }

    /** Accumulates the raw gradients: no learning rate at this point. */
    method ReversedUpdate(errors: seq<seq<real>>)
      requires Valid() && |errors| <= |cache0|
      modifies this
      ensures Valid()
      ensures cache0 == Accumulated(old(cache0), errors, 1.0) && cache1 == old(cache1)
    {
      cache0 := ReversedAdd(cache0, errors, 1.0);
    }

    method GetStep(sqrt: NonNegFn) returns (steps: seq<seq<real>>)
      requires Valid()
      modifies this
      ensures Valid()
      ensures cache1 == Decayed(old(cache1), Squares(old(cache0)), beta0, beta1)
      ensures steps == RmsSteps(old(cache0), cache1, lr, sqrt)
      ensures Shape(steps) == Shape(old(cache0))
      ensures cache0 == Zeroed(old(cache0))
    {
      cache1 := DecayInPlace(cache1, Squares(cache0), beta0, beta1);
      steps := RmsStepsOf(cache0, cache1, lr, sqrt);
      cache0 := ZeroInPlace(cache0);
    }
  }

  // ---------------------------------------------------------------------
  // Applying steps, and the generic entry points for each optimizer
  // ---------------------------------------------------------------------

  /** Every layer after its own `step`. */
  function AllStepped(ls: seq<LayerState>, steps: seq<seq<real>>): (r: seq<LayerState>)
    requires |steps| >= |ls|
    ensures |r| == |ls|
  {
    seq(|ls|, i requires 0 <= i < |ls| => AfterStep(ls[i], steps[i]))
  }

  /** Stepping keeps every `param_num`, so the optimizer's accumulators stay shaped after the network. */
  lemma StepKeepsOptimizerShape(ls: seq<LayerState>, steps: seq<seq<real>>)
    requires |steps| >= |ls|
    ensures ZeroCaches(AllStepped(ls, steps)) == ZeroCaches(ls)
  {
    forall i | 0 <= i < |ls|
      ensures ParamCount(AllStepped(ls, steps)[i]) == ParamCount(ls[i])
    {
      AfterStepShape(ls[i], steps[i]);
    }
  }

  /** The loop of `step`: each layer takes its own step vector. */
  method ApplySteps(net: SeqNet, steps: seq<seq<real>>)
    requires net.Owned() && |steps| >= |net.layers|
    modifies net.layers
    ensures net.States() == AllStepped(old(net.States()), steps)
  {
    var layer := 0;
    while layer < |net.layers|
      invariant 0 <= layer <= |net.layers|
      invariant forall k :: 0 <= k < |net.layers| ==>
        net.layers[k].State() == if k < layer then AfterStep(old(net.layers[k].State()), steps[k]) else old(net.layers[k].State())
    {
      net.layers[layer].Step(steps[layer]);
      layer := layer + 1;
    }
  }

  method BackPropagateSGD(input: seq<real>, expected: seq<real>, net: SeqNet, optim: SGD, exp: PosFn)
    requires TrainGradients(net.States(), input, expected, exp).Some?
    requires |net.layers| <= |optim.cache|
    modifies optim
    ensures optim.cache == Accumulated(old(optim.cache), TrainGradients(net.States(), input, expected, exp).value, optim.lr)
  {
    var errors := Gradients(input, expected, net, exp);
    optim.ReversedUpdate(errors);
  }

  method BackPropagateMomentum(input: seq<real>, expected: seq<real>, net: SeqNet, optim: SGDwMomentum, exp: PosFn)
    requires TrainGradients(net.States(), input, expected, exp).Some?
    requires optim.Valid() && |net.layers| <= |optim.cache|
    modifies optim
    ensures optim.Valid() && optim.momCache == old(optim.momCache)
    ensures optim.cache == Accumulated(old(optim.cache), TrainGradients(net.States(), input, expected, exp).value, optim.lr)
  {
    var errors := Gradients(input, expected, net, exp);
    optim.ReversedUpdate(errors);
  }

  method BackPropagateRMSProp(input: seq<real>, expected: seq<real>, net: SeqNet, optim: RMSProp, exp: PosFn)
    requires TrainGradients(net.States(), input, expected, exp).Some?
    requires optim.Valid() && |net.layers| <= |optim.cache0|
    modifies optim
    ensures optim.Valid() && optim.cache1 == old(optim.cache1)
    ensures optim.cache0 == Accumulated(old(optim.cache0), TrainGradients(net.States(), input, expected, exp).value, 1.0)
  {
    var errors := Gradients(input, expected, net, exp);
    optim.ReversedUpdate(errors);
  }

  method StepSGD(net: SeqNet, optim: SGD)
    requires net.Owned() && |optim.cache| >= |net.layers|
    modifies optim, net.layers
    ensures net.States() == AllStepped(old(net.States()), old(optim.cache))
    ensures optim.cache == Zeroed(old(optim.cache))
  {
    var steps := optim.GetStep();
    ApplySteps(net, steps);
  }

  method StepMomentum(net: SeqNet, optim: SGDwMomentum)
    requires net.Owned() && optim.Valid() && |optim.momCache| >= |net.layers|
    modifies optim, net.layers
    ensures optim.Valid()
    ensures optim.momCache == Decayed(old(optim.momCache), old(optim.cache), optim.mom0, optim.mom1)
    ensures net.States() == AllStepped(old(net.States()), optim.momCache)
    ensures optim.cache == Zeroed(old(optim.cache))
  {
    var steps := optim.GetStep();
    ApplySteps(net, steps);
  }

  method StepRMSProp(net: SeqNet, optim: RMSProp, sqrt: NonNegFn)
    requires net.Owned() && optim.Valid() && |optim.cache0| >= |net.layers|
    modifies optim, net.layers
    ensures optim.Valid()
    ensures optim.cache1 == Decayed(old(optim.cache1), Squares(old(optim.cache0)), optim.beta0, optim.beta1)
    ensures net.States() == AllStepped(old(net.States()), RmsSteps(old(optim.cache0), optim.cache1, optim.lr, sqrt))
    ensures optim.cache0 == Zeroed(old(optim.cache0))
  {
    var steps := optim.GetStep(sqrt);
    ApplySteps(net, steps);
  }

  /** A second `get_step` with nothing accumulated in between returns only zeros. */
  method SgdDrainsOnce(optim: SGD) returns (first: seq<seq<real>>, second: seq<seq<real>>)
    modifies optim
    ensures first == old(optim.cache)
    ensures AllZero(second) && Shape(second) == Shape(first)
    ensures optim.cache == second
  {
    first := optim.GetStep();
    second := optim.GetStep();
  }
}

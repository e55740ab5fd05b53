/**
 * The layers of the network (src/radonn/nn/net.rs).
 *
 * Each layer variant is specified by pure functions over a `LayerState`
 * value (its variant and its parameter buffer). The loops of the engine are
 * methods proved against those functions; the class `Layer` holds the
 * parameter buffer that `step` updates in place. Where the engine would
 * panic (an index out of range, `chunks(0)`), the specification function
 * returns `None`.
 */
module Net {
  import opened Vectors

  /** The activation functions an `Activation` layer can wrap. */
  datatype Function = ReLU | Sigmoid

  /** The four layer variants; a `Dense` layer's dimensions are fixed at creation. */
  datatype Kind = Dense(inNum: nat, outNum: nat) | Bias | Activation(f: Function) | Softmax

  /** A layer at one moment: its variant and its flat parameter buffer. */
  datatype LayerState = LayerState(kind: Kind, connections: seq<real>)

  // ---------------------------------------------------------------------
  // Activation functions
  // ---------------------------------------------------------------------

  /** The logistic function; with a positive `exp` it lies strictly between 0 and 1. */
  function SigmoidOf(v: real, exp: PosFn): (s: real)
    ensures 0.0 < s < 1.0
  {
    UnitReciprocal(1.0 + exp(-v));
    1.0 / (1.0 + exp(-v))
  }

  /** The sigmoid and its derivative, computed from one evaluation. */
  function SigmoidWDerivation(v: real, exp: PosFn): (r: (real, real))
    ensures r.0 == SigmoidOf(v, exp)
    ensures 0.0 < r.1 <= 0.25
  {
    var s := SigmoidOf(v, exp);
    LogisticSlope(s);
    (s, s * (1.0 - s))
  }

  /** The closure that `activate` maps over its input. */
  function ActivatePoint(f: Function, v: real, exp: PosFn): (a: real)
    ensures f == ReLU ==> a >= 0.0 && a >= v && (a == v || a == 0.0)
    ensures f == Sigmoid ==> 0.0 < a < 1.0
  {
    match f
    case ReLU => if v > 0.0 then v else 0.0
    case Sigmoid => SigmoidOf(v, exp)
  }

  /** The closure that `d_activate` maps over its input: (value, derivative). */
  function DActivatePoint(f: Function, v: real, exp: PosFn): (p: (real, real))
    ensures p.0 == ActivatePoint(f, v, exp)
    ensures f == ReLU ==> (p.1 == 1.0 <==> v > 0.0) && (p.1 == 0.0 <==> v <= 0.0)
    ensures f == Sigmoid ==> 0.0 < p.1 <= 0.25
  {
    match f
    case ReLU => if v > 0.0 then (v, 1.0) else (0.0, 0.0)
    case Sigmoid => SigmoidWDerivation(v, exp)
  }

  /** `activate`: one value per input, non-negative for ReLU and in (0, 1) for Sigmoid. */
  function Activate(f: Function, val: seq<real>, exp: PosFn): (r: seq<real>)
    ensures |r| == |val|
    ensures forall i :: 0 <= i < |val| ==> (f == ReLU ==> r[i] >= 0.0) && (f == Sigmoid ==> 0.0 < r[i] < 1.0)
  {
    seq(|val|, i requires 0 <= i < |val| => ActivatePoint(f, val[i], exp))
  }

  /** Splits a vector of pairs into the vector of first and of second components. */
  function Unzip(ps: seq<(real, real)>): (r: (seq<real>, seq<real>))
    ensures |r.0| == |ps| && |r.1| == |ps|
    ensures forall i :: 0 <= i < |ps| ==> r.0[i] == ps[i].0 && r.1[i] == ps[i].1
  {
    if ps == [] then ([], [])
    else
      var rest := Unzip(ps[1..]);
      ([ps[0].0] + rest.0, [ps[0].1] + rest.1)
  }

  /** The activated values and the local derivatives. */
  function DActivate(f: Function, val: seq<real>, exp: PosFn): (r: (seq<real>, seq<real>))
    ensures |r.0| == |val| && |r.1| == |val|
    ensures forall i :: 0 <= i < |val| ==>
      (f == ReLU ==> r.1[i] == 0.0 || r.1[i] == 1.0) && (f == Sigmoid ==> 0.0 < r.1[i] <= 0.25)
  {
    Unzip(seq(|val|, i requires 0 <= i < |val| => DActivatePoint(f, val[i], exp)))
  }

  /** `d_activate` computes the same values as `activate`, and one derivative per input. */
  lemma DActivateAgrees(f: Function, val: seq<real>, exp: PosFn)
    ensures DActivate(f, val, exp).0 == Activate(f, val, exp)
    ensures |DActivate(f, val, exp).1| == |val|
  {
  }

  /** ReLU is max(x, 0); its derivative is 1 exactly where x > 0, and 0 elsewhere. */
  lemma ReluSemantics(val: seq<real>, exp: PosFn)
    ensures |Activate(ReLU, val, exp)| == |val|
    ensures forall i :: 0 <= i < |val| ==>
      var a := Activate(ReLU, val, exp)[i];
      a >= 0.0 && a >= val[i] && (a == val[i] || a == 0.0)
    ensures forall i :: 0 <= i < |val| ==>
      (DActivate(ReLU, val, exp).1[i] == 1.0 <==> val[i] > 0.0) &&
      (DActivate(ReLU, val, exp).1[i] == 0.0 <==> val[i] <= 0.0)
  {
  }

  /** Sigmoid's derivative is s * (1 - s) of its own first component. */
  lemma SigmoidSemantics(val: seq<real>, exp: PosFn)
    ensures DActivate(Sigmoid, val, exp).0 == Activate(Sigmoid, val, exp)
    ensures forall i :: 0 <= i < |val| ==>
      var s := DActivate(Sigmoid, val, exp).0[i];
      s * (1.0 + exp(-val[i])) == 1.0 &&
      DActivate(Sigmoid, val, exp).1[i] == s * (1.0 - s)
  {
    DActivateAgrees(Sigmoid, val, exp);
    forall i | 0 <= i < |val|
      ensures var s := DActivate(Sigmoid, val, exp).0[i];
        s * (1.0 + exp(-val[i])) == 1.0 &&
        DActivate(Sigmoid, val, exp).1[i] == s * (1.0 - s)
    {
      SigmoidAt(val, exp, i);
    }
  }

  lemma SigmoidAt(val: seq<real>, exp: PosFn, i: nat)
    requires i < |val|
    ensures DActivate(Sigmoid, val, exp).0[i] * (1.0 + exp(-val[i])) == 1.0
    ensures DActivate(Sigmoid, val, exp).1[i] == DActivate(Sigmoid, val, exp).0[i] * (1.0 - DActivate(Sigmoid, val, exp).0[i])
  {
    SigmoidValueAt(val, exp, i);
    SigmoidSlopeAt(val, exp, i);
  }

  lemma SigmoidValueAt(val: seq<real>, exp: PosFn, i: nat)
    requires i < |val|
    ensures DActivate(Sigmoid, val, exp).0[i] * (1.0 + exp(-val[i])) == 1.0
  {
    DActivateAt(Sigmoid, val, exp, i);
    SigmoidPoint(val[i], exp, DActivate(Sigmoid, val, exp).0[i], DActivate(Sigmoid, val, exp).1[i]);
  }

  lemma SigmoidSlopeAt(val: seq<real>, exp: PosFn, i: nat)
    requires i < |val|
    ensures DActivate(Sigmoid, val, exp).1[i] == DActivate(Sigmoid, val, exp).0[i] * (1.0 - DActivate(Sigmoid, val, exp).0[i])
  {
    DActivateAt(Sigmoid, val, exp, i);
    SigmoidPoint(val[i], exp, DActivate(Sigmoid, val, exp).0[i], DActivate(Sigmoid, val, exp).1[i]);
  }

  lemma DActivateAt(f: Function, val: seq<real>, exp: PosFn, i: nat)
    requires i < |val|
    ensures DActivate(f, val, exp).0[i] == DActivatePoint(f, val[i], exp).0
    ensures DActivate(f, val, exp).1[i] == DActivatePoint(f, val[i], exp).1
  {
  }

  lemma SigmoidPoint(v: real, exp: PosFn, s: real, d: real)
    requires s == DActivatePoint(Sigmoid, v, exp).0 && d == DActivatePoint(Sigmoid, v, exp).1
    ensures s * (1.0 + exp(-v)) == 1.0
    ensures d == s * (1.0 - s)
  {
    assert s == SigmoidOf(v, exp) && d == SigmoidWDerivation(v, exp).1;
    Reciprocal(1.0 + exp(-v));
  }

  // ---------------------------------------------------------------------
  // Dense: index layouts
  // ---------------------------------------------------------------------

  /** Where the weight from input `i` to output `o` is stored: chunk `i`, position `o`. */
  function InputMajor(i: nat, o: nat, outNum: nat): nat
  {
    i * outNum + o
  }

  /** Where `calc_err` writes the gradient for input `i` and output `o`. */
  function OutputMajor(o: nat, i: nat, inNum: nat): nat
  {
    o * inNum + i
  }

  /** The two index maps agree on every weight exactly when one dimension is 1. */
  lemma {:induction false} LayoutsAgreeIff(inNum: nat, outNum: nat)
    requires inNum > 0 && outNum > 0
    ensures (forall i: nat, o: nat :: i < inNum && o < outNum ==>
               InputMajor(i, o, outNum) == OutputMajor(o, i, inNum))
            <==> (inNum == 1 || outNum == 1)
  {
    if inNum != 1 && outNum != 1 {
      assert InputMajor(1, 0, outNum) == outNum;
      assert OutputMajor(0, 1, inNum) == 1;
    }
  }

  // ---------------------------------------------------------------------
  // Dense: forward
  // ---------------------------------------------------------------------

  /** The first `n` entries of `x` are zero. */
  predicate ZeroUpTo(x: seq<real>, n: nat)
    requires n <= |x|
  {
    forall i :: 0 <= i < n ==> x[i] == 0.0
  }

  /**
   * The sum over the first `n` inputs of input[i] * weight(i, o), taking
   * only the weights that exist in the buffer (the last chunk may be short).
   */
  function ColumnSum(con: seq<real>, m: nat, x: seq<real>, o: nat, n: nat): real
    requires n <= |x|
  {
    if n == 0 then 0.0
    else
      ColumnSum(con, m, x, o, n - 1) +
      (if InputMajor(n - 1, o, m) < |con| then con[InputMajor(n - 1, o, m)] * x[n - 1] else 0.0)
  }

  /** Dense `feed_forward`: out[o] is the column sum over every input. */
  function DenseForward(con: seq<real>, m: nat, x: seq<real>): (r: seq<real>)
    ensures |r| == m
  {
    seq(m, o requires 0 <= o < m => ColumnSum(con, m, x, o, |x|))
  }

  /** A zero input gives a zero column sum. */
  lemma {:induction false} ColumnSumOfZeros(con: seq<real>, m: nat, x: seq<real>, o: nat, n: nat)
    requires n <= |x| && ZeroUpTo(x, n)
    ensures ColumnSum(con, m, x, o, n) == 0.0
  {
    if n > 0 {
      ColumnSumOfZeros(con, m, x, o, n - 1);
    }
  }

  /** Once the chunks run out, later inputs add nothing. */
  lemma {:induction false} ColumnSumStable(con: seq<real>, m: nat, x: seq<real>, o: nat, n: nat, k: nat)
    requires n <= k <= |x| && n * m >= |con|
    ensures ColumnSum(con, m, x, o, k) == ColumnSum(con, m, x, o, n)
    decreases k
  {
    if k > n {
      ColumnSumStable(con, m, x, o, n, k - 1);
      MulMonotone(n, k - 1, m);
      assert InputMajor(k - 1, o, m) >= |con|;
    }
  }

  function Axpy(a: real, x: seq<real>, y: seq<real>): (r: seq<real>)
    requires |x| == |y|
    ensures |r| == |x|
  {
    seq(|x|, i requires 0 <= i < |x| => a * x[i] + y[i])
  }

  /** z = a*x + y entry by entry gives the same relation between the column sums. */
  lemma {:induction false} ColumnSumLinear(con: seq<real>, m: nat, a: real, x: seq<real>, y: seq<real>, z: seq<real>, o: nat, n: nat)
    requires |x| == |y| == |z| && n <= |x|
    requires forall i :: 0 <= i < n ==> Affine(z[i], a, x[i], y[i])
    ensures Affine(ColumnSum(con, m, z, o, n), a, ColumnSum(con, m, x, o, n), ColumnSum(con, m, y, o, n))
  {
    if n > 0 {
      ColumnSumLinear(con, m, a, x, y, z, o, n - 1);
      ColumnSumNext(con, m, z, o, n);
      ColumnSumNext(con, m, x, o, n);
      ColumnSumNext(con, m, y, o, n);
      LinearStep(ColumnSum(con, m, z, o, n - 1), ColumnSum(con, m, x, o, n - 1), ColumnSum(con, m, y, o, n - 1),
                 a, Weight(con, InputMajor(n - 1, o, m)), x[n - 1], y[n - 1], z[n - 1],
                 ColumnSum(con, m, z, o, n), ColumnSum(con, m, x, o, n), ColumnSum(con, m, y, o, n));
    }
  }

  /** The weight at index `k`, or 0 past the end of the buffer. */
  function Weight(con: seq<real>, k: nat): real
  {
    if k < |con| then con[k] else 0.0
  }

  lemma ColumnSumNext(con: seq<real>, m: nat, v: seq<real>, o: nat, n: nat)
    requires 0 < n <= |v|
    ensures ColumnSum(con, m, v, o, n) == ColumnSum(con, m, v, o, n - 1) + Weight(con, InputMajor(n - 1, o, m)) * v[n - 1]
  {
  }

  /** Dense `feed_forward` is linear in its input. */
  lemma DenseForwardLinear(con: seq<real>, m: nat, a: real, x: seq<real>, y: seq<real>)
    requires |x| == |y|
    ensures DenseForward(con, m, Axpy(a, x, y)) == Axpy(a, DenseForward(con, m, x), DenseForward(con, m, y))
  {
    var lhs, rhs := DenseForward(con, m, Axpy(a, x, y)), Axpy(a, DenseForward(con, m, x), DenseForward(con, m, y));
    forall o | 0 <= o < m
      ensures lhs[o] == rhs[o]
    {
      DenseForwardLinearAt(con, m, a, x, y, o);
    }
  }

  lemma DenseForwardLinearAt(con: seq<real>, m: nat, a: real, x: seq<real>, y: seq<real>, o: nat)
    requires |x| == |y| && o < m
    ensures DenseForward(con, m, Axpy(a, x, y))[o] ==
            Axpy(a, DenseForward(con, m, x), DenseForward(con, m, y))[o]
  {
    var z := Axpy(a, x, y);
    ColumnSumLinear(con, m, a, x, y, z, o, |x|);
    AffineTransfer(DenseForward(con, m, z)[o], DenseForward(con, m, x)[o], DenseForward(con, m, y)[o], a,
                   ColumnSum(con, m, z, o, |x|), ColumnSum(con, m, x, o, |x|), ColumnSum(con, m, y, o, |x|));
  }

  /** Chunk `i + 1` starts `m` entries after chunk `i`. */
  lemma NextChunk(i: nat, m: nat)
    ensures InputMajor(i + 1, 0, m) == InputMajor(i, 0, m) + m
  {
  }

  /** Past the end of a short last chunk, the column sums gain nothing. */
  lemma ShortChunkAddsNothing(con: seq<real>, m: nat, x: seq<real>, i: nat, o: nat)
    requires i < |x| && InputMajor(i, o, m) >= |con|
    ensures ColumnSum(con, m, x, o, i + 1) == ColumnSum(con, m, x, o, i)
  {
  }

  /** The `chunks(out_num)` / `zip` loops of Dense `feed_forward`. */
  method DenseFeedForward(connections: seq<real>, outNum: nat, input: seq<real>) returns (out: seq<real>)
    requires outNum > 0
    ensures out == DenseForward(connections, outNum, input)
  {
    out := Zeros(outNum);
    var i, start := 0, 0;
    while i < |input| && start < |connections|
      invariant 0 <= i <= |input|
      invariant start == InputMajor(i, 0, outNum)
      invariant |out| == outNum
      invariant forall o :: 0 <= o < outNum ==> out[o] == ColumnSum(connections, outNum, input, o, i)
    {
      var chunk := connections[start..Min(start + outNum, |connections|)];
      var o := 0;
      while o < outNum && o < |chunk|
        invariant 0 <= o <= outNum && o <= |chunk|
        invariant |out| == outNum
        invariant forall k :: 0 <= k < o ==> out[k] == ColumnSum(connections, outNum, input, k, i + 1)
        invariant forall k :: o <= k < outNum ==> out[k] == ColumnSum(connections, outNum, input, k, i)
      {
        assert chunk[o] == connections[InputMajor(i, o, outNum)];
        out := out[o := out[o] + chunk[o] * input[i]];
        o := o + 1;
      }
      forall k | o <= k < outNum
        ensures out[k] == ColumnSum(connections, outNum, input, k, i + 1)
      {
        ShortChunkAddsNothing(connections, outNum, input, i, k);
      }
      NextChunk(i, outNum);
      i, start := i + 1, start + outNum;
    }
    forall o | 0 <= o < outNum
      ensures out[o] == ColumnSum(connections, outNum, input, o, |input|)
    {
      if i < |input| {
        ColumnSumStable(connections, outNum, input, o, i, |input|);
      }
    }
  }

  // ---------------------------------------------------------------------
  // Dense: backward
  // ---------------------------------------------------------------------

  /** The conditions under which Dense `back_propagate` does not panic. */
  predicate DenseBackDefined(len: nat, m: nat, errLen: nat)
  {
    m > 0 && len % m == 0 && (len > 0 ==> errLen > 0)
  }

  /** The sum over the first `k` outputs of weight(i, o) * e[o]. */
  function RowSum(con: seq<real>, m: nat, e: seq<real>, i: nat, k: nat): real
    requires InputMajor(i, k, m) <= |con| && k <= |e|
  {
    if k == 0 then 0.0
    else RowSum(con, m, e, i, k - 1) + con[InputMajor(i, k - 1, m)] * e[k - 1]
  }

  /** Dense `back_propagate`: one row sum per chunk. */
  function DenseBackward(con: seq<real>, m: nat, e: seq<real>): (r: seq<real>)
    requires m > 0 && |con| % m == 0
    ensures |r| == |con| / m
  {
    seq(|con| / m, i requires 0 <= i < |con| / m =>
      ChunkInside(i, m, |con|);
      RowSum(con, m, e, i, Min(m, |e|)))
  }

  /** A zero error gives a zero row sum. */
  lemma {:induction false} RowSumOfZeros(con: seq<real>, m: nat, e: seq<real>, i: nat, k: nat)
    requires InputMajor(i, k, m) <= |con| && k <= |e| && ZeroUpTo(e, k)
    ensures RowSum(con, m, e, i, k) == 0.0
  {
    if k > 0 {
      RowSumOfZeros(con, m, e, i, k - 1);
    }
  }

  method DenseBackPropagate(connections: seq<real>, outNum: nat, outErr: seq<real>) returns (err: seq<real>)
    requires DenseBackDefined(|connections|, outNum, |outErr|)
    ensures err == DenseBackward(connections, outNum, outErr)
  {
    err := [];
    var rows := |connections| / outNum;
    while |err| < rows
      invariant |err| <= rows
      invariant forall i :: 0 <= i < |err| ==> err[i] == DenseBackward(connections, outNum, outErr)[i]
    {
      var row := |err|;
      var start := InputMajor(row, 0, outNum);
      ChunkInside(row, outNum, |connections|);
      var chunk := connections[start..start + outNum];
      assert RowSum(connections, outNum, outErr, row, 1) == chunk[0] * outErr[0];
      var num := chunk[0] * outErr[0];
      var k := 1;
      while k < outNum && k < |outErr|
        invariant 1 <= k <= outNum && k <= |outErr|
        invariant num == RowSum(connections, outNum, outErr, row, k)
      {
        assert chunk[k] == connections[InputMajor(row, k, outNum)];
        num := num + chunk[k] * outErr[k];
        k := k + 1;
      }
      err := err + [num];
    }
  }

  // ---------------------------------------------------------------------
  // Dense: parameter gradient
  // ---------------------------------------------------------------------

  function Scale(a: real, x: seq<real>): (r: seq<real>)
    ensures |r| == |x|
  {
    seq(|x|, t requires 0 <= t < |x| => a * x[t])
  }

  /**
   * Dense `calc_err` as written: for each error, for each input, the
   * product; so block `o` holds the gradients of output `o`.
   */
  function DenseGrad(p: seq<real>, x: seq<real>): (r: seq<real>)
    ensures |r| == |p| * |x|
  {
    if p == [] then []
    else DenseGrad(p[..|p| - 1], x) + Scale(p[|p| - 1], x)
  }

  /** `calc_err` writes the gradient of weight (i, o) at the output-major index. */
  lemma {:induction false} DenseGradAt(p: seq<real>, x: seq<real>, o: nat, i: nat)
    requires o < |p| && i < |x|
    ensures OutputMajor(o, i, |x|) < |p| * |x|
    ensures DenseGrad(p, x)[OutputMajor(o, i, |x|)] == p[o] * x[i]
    decreases |p|
  {
    var q := p[..|p| - 1];
    assert |DenseGrad(q, x)| == (|p| - 1) * |x|;
    if o < |p| - 1 {
      DenseGradAt(q, x, o, i);
    } else {
      assert OutputMajor(o, i, |x|) == |DenseGrad(q, x)| + i;
    }
  }

  /**
   * The gradient in the layout of the weight buffer: block `i` holds
   * input[i] times every error. These are the loops of `calc_err` taken
   * in the other order.
   */
  function StorageGrad(e: seq<real>, x: seq<real>): (r: seq<real>)
    ensures |r| == |x| * |e|
  {
    DenseGrad(x, e)
  }

  lemma StorageGradAt(e: seq<real>, x: seq<real>, i: nat, o: nat)
    requires i < |x| && o < |e|
    ensures InputMajor(i, o, |e|) < |x| * |e|
    ensures StorageGrad(e, x)[InputMajor(i, o, |e|)] == e[o] * x[i]
  {
    DenseGradAt(x, e, i, o);
  }

  /**
   * The gradient `calc_err` emits lines up with the weight buffer that
   * `step` subtracts it from, for every error and input, exactly when one
   * of the dimensions is 1.
   */
  lemma CalcErrMatchesStorageIff(inNum: nat, outNum: nat)
    requires inNum > 0 && outNum > 0
    ensures (forall e: seq<real>, x: seq<real> :: |e| == outNum && |x| == inNum ==>
               DenseGrad(e, x) == StorageGrad(e, x))
            <==> (inNum == 1 || outNum == 1)
  {
    if inNum == 1 || outNum == 1 {
      forall e: seq<real>, x: seq<real> | |e| == outNum && |x| == inNum
        ensures DenseGrad(e, x) == StorageGrad(e, x)
      {
        ThinLayoutsAgree(e, x);
      }
    } else {
      var e := [1.0] + Zeros(outNum - 1);
      var x := [0.0, 1.0] + Zeros(inNum - 2);
      WideLayoutsDiffer(e, x);
    }
  }

  /** With a single input or a single output both layouts are the same vector. */
  lemma ThinLayoutsAgree(e: seq<real>, x: seq<real>)
    requires |e| > 0 && |x| > 0 && (|x| == 1 || |e| == 1)
    ensures DenseGrad(e, x) == StorageGrad(e, x)
  {
    if |x| == 1 {
      SingleInputAgrees(e, x);
    } else {
      SingleOutputAgrees(e, x);
    }
  }

  lemma SingleInputAgrees(e: seq<real>, x: seq<real>)
    requires |x| == 1
    ensures DenseGrad(e, x) == StorageGrad(e, x)
  {
    var n := |e|;
    assert |DenseGrad(e, x)| == n && |StorageGrad(e, x)| == n;
    forall k | 0 <= k < n
      ensures DenseGrad(e, x)[k] == StorageGrad(e, x)[k]
    {
      DenseGradAt(e, x, k, 0);
      StorageGradAt(e, x, 0, k);
    }
  }

  lemma SingleOutputAgrees(e: seq<real>, x: seq<real>)
    requires |e| == 1
    ensures DenseGrad(e, x) == StorageGrad(e, x)
  {
    var n := |x|;
    assert |DenseGrad(e, x)| == n && |StorageGrad(e, x)| == n;
    forall k | 0 <= k < n
      ensures DenseGrad(e, x)[k] == StorageGrad(e, x)[k]
    {
      DenseGradAt(e, x, 0, k);
      StorageGradAt(e, x, k, 0);
    }
  }

  /** Error [1, 0, ...] and input [0, 1, ...]: position 1 differs between the layouts. */
  lemma WideLayoutsDiffer(e: seq<real>, x: seq<real>)
    requires |e| > 1 && |x| > 1
    requires e == [1.0] + Zeros(|e| - 1) && x == [0.0, 1.0] + Zeros(|x| - 2)
    ensures DenseGrad(e, x) != StorageGrad(e, x)
  {
    DenseGradAt(e, x, 0, 1);
    StorageGradAt(e, x, 0, 1);
    assert DenseGrad(e, x)[1] == 1.0;
    assert StorageGrad(e, x)[1] == 0.0;
  }

  lemma ScaleExtend(a: real, x: seq<real>, j: nat)
    requires j < |x|
    ensures Scale(a, x[..j + 1]) == Scale(a, x[..j]) + [a * x[j]]
  {
    var l, r := Scale(a, x[..j + 1]), Scale(a, x[..j]) + [a * x[j]];
    forall t | 0 <= t < j + 1
      ensures l[t] == r[t]
    {
      if t < j {
        assert r[t] == Scale(a, x[..j])[t];
      }
    }
  }

  /** Dense `calc_err`: the nested push loops. */
  method DenseCalcErr(prevErr: seq<real>, input: seq<real>) returns (g: seq<real>)
    ensures g == DenseGrad(prevErr, input)
  {
    g := [];
    var o := 0;
    while o < |prevErr|
      invariant 0 <= o <= |prevErr|
      invariant g == DenseGrad(prevErr[..o], input)
    {
      ghost var done := g;
      var err := prevErr[o];
      var j := 0;
      while j < |input|
        invariant 0 <= j <= |input|
        invariant g == done + Scale(err, input[..j])
      {
        ScaleExtend(err, input, j);
        assert (done + Scale(err, input[..j])) + [err * input[j]] == done + (Scale(err, input[..j]) + [err * input[j]]);
        g := g + [err * input[j]];
        j := j + 1;
      }
      assert input[..j] == input;
      assert prevErr[..o + 1][..o] == prevErr[..o];
      o := o + 1;
    }
    assert prevErr[..o] == prevErr;
  }

  // ---------------------------------------------------------------------
  // Bias, Activation, step
  // ---------------------------------------------------------------------

  /** Bias `feed_forward`; subtracting the bias again recovers the input. */
  function BiasForward(con: seq<real>, x: seq<real>): (r: seq<real>)
    requires |x| <= |con|
    ensures |r| == |x|
    ensures forall i :: 0 <= i < |x| ==> r[i] - con[i] == x[i]
  {
    seq(|x|, i requires 0 <= i < |x| => x[i] + con[i])
  }

  method BiasFeedForward(connections: seq<real>, input: seq<real>) returns (out: seq<real>)
    requires |input| <= |connections|
    ensures |out| == |input|
    ensures forall i :: 0 <= i < |input| ==> out[i] == input[i] + connections[i]
    ensures out == BiasForward(connections, input)
  {
    out := [];
    var i := 0;
    while i < |input|
      invariant 0 <= i <= |input| && |out| == i
      invariant forall k :: 0 <= k < i ==> out[k] == input[k] + connections[k]
    {
      out := out + [input[i] + connections[i]];
      i := i + 1;
    }
  }

  /** Activation `back_propagate`: the elementwise chain rule. */
  function ChainRule(e: seq<real>, cache: seq<real>): (r: seq<real>)
    requires |cache| >= |e|
    ensures |r| == |e|
    ensures forall i :: 0 <= i < |e| && cache[i] == 0.0 ==> r[i] == 0.0
  {
    seq(|e|, i requires 0 <= i < |e| => e[i] * cache[i])
  }

  method ActivationBackPropagate(out: seq<real>, cache: seq<real>) returns (delta: seq<real>)
    requires |cache| >= |out|
    ensures |delta| == |out|
    ensures forall i :: 0 <= i < |out| ==> delta[i] == out[i] * cache[i]
    ensures delta == ChainRule(out, cache)
  {
    delta := [];
    var i := 0;
    while i < |out|
      invariant 0 <= i <= |out| && |delta| == i
      invariant forall k :: 0 <= k < i ==> delta[k] == out[k] * cache[k]
    {
      delta := delta + [out[i] * cache[i]];
      i := i + 1;
    }
    forall k | 0 <= k < |out|
      ensures delta[k] == ChainRule(out, cache)[k]
    {
    }
  }

  /** `step` of Dense and Bias: subtract position for position, as far as both reach. */
  function Stepped(con: seq<real>, s: seq<real>): (r: seq<real>)
    ensures |r| == |con|
    ensures forall k :: 0 <= k < |con| && k < |s| ==> r[k] + s[k] == con[k]
    ensures forall k :: |s| <= k < |con| ==> r[k] == con[k]
  {
    seq(|con|, k requires 0 <= k < |con| => if k < |s| then con[k] - s[k] else con[k])
  }

  // ---------------------------------------------------------------------
  // Softmax
  // ---------------------------------------------------------------------

  /** The running maximum after looking at the first `k` inputs, starting from input[0]. */
  function MaxUpTo(x: seq<real>, k: nat): (r: real)
    requires 0 < |x| && k <= |x|
    ensures x[0] <= r
    ensures forall i :: 0 <= i < k ==> x[i] <= r
  {
    if k == 0 then x[0]
    else
      var m := MaxUpTo(x, k - 1);
      if x[k - 1] > m then x[k - 1] else m
  }

  /** The max loop leaves a value that bounds every input seen and is one of the inputs. */
  lemma {:induction false} MaxUpToIsMaximum(x: seq<real>, k: nat)
    requires 0 < |x| && k <= |x|
    ensures forall i :: 0 <= i < k ==> x[i] <= MaxUpTo(x, k)
    ensures exists i :: 0 <= i < |x| && x[i] == MaxUpTo(x, k)
  {
    if k == 0 {
      assert x[0] == MaxUpTo(x, k);
    } else {
      MaxUpToIsMaximum(x, k - 1);
      if x[k - 1] > MaxUpTo(x, k - 1) {
        assert x[k - 1] == MaxUpTo(x, k);
      }
    }
  }

  function ExpSum(x: seq<real>, mx: real, exp: PosFn, k: nat): (r: real)
    requires k <= |x|
    ensures r >= 0.0
  {
    if k == 0 then 0.0 else ExpSum(x, mx, exp, k - 1) + exp(x[k - 1] - mx)
  }

  lemma {:induction false} ExpSumPositive(x: seq<real>, mx: real, exp: PosFn, k: nat)
    requires 0 < k <= |x|
    ensures ExpSum(x, mx, exp, k) > 0.0
  {
    if k > 1 {
      ExpSumPositive(x, mx, exp, k - 1);
    }
  }

  /** Softmax `feed_forward`: subtract the maximum, exponentiate, normalise. */
  function SoftmaxForward(x: seq<real>, exp: PosFn): (r: seq<real>)
    requires |x| > 0
    ensures |r| == |x|
  {
    var mx := MaxUpTo(x, |x|);
    ExpSumPositive(x, mx, exp, |x|);
    var sum := ExpSum(x, mx, exp, |x|);
    seq(|x|, i requires 0 <= i < |x| => exp(x[i] - mx) / sum)
  }

  lemma SoftmaxPositive(x: seq<real>, exp: PosFn)
    requires |x| > 0
    ensures forall i :: 0 <= i < |x| ==> SoftmaxForward(x, exp)[i] > 0.0
  {
    var mx := MaxUpTo(x, |x|);
    ExpSumPositive(x, mx, exp, |x|);
    forall i | 0 <= i < |x|
      ensures SoftmaxForward(x, exp)[i] > 0.0
    {
      QuotientPositive(exp(x[i] - mx), ExpSum(x, mx, exp, |x|));
    }
  }

  function Shift(x: seq<real>, c: real): (r: seq<real>)
    ensures |r| == |x|
  {
    seq(|x|, i requires 0 <= i < |x| => x[i] + c)
  }

  lemma {:induction false} MaxUpToShift(x: seq<real>, c: real, k: nat)
    requires 0 < |x| && k <= |x|
    ensures MaxUpTo(Shift(x, c), k) == MaxUpTo(x, k) + c
  {
    if k > 0 {
      MaxUpToShift(x, c, k - 1);
    }
  }

  lemma {:induction false} ExpSumShift(x: seq<real>, mx: real, c: real, exp: PosFn, k: nat)
    requires k <= |x|
    ensures ExpSum(Shift(x, c), mx + c, exp, k) == ExpSum(x, mx, exp, k)
  {
    if k > 0 {
      ExpSumShift(x, mx, c, exp, k - 1);
      assert Shift(x, c)[k - 1] - (mx + c) == x[k - 1] - mx;
    }
  }

  /** Adding a constant to every input leaves the output exactly unchanged. */
  lemma SoftmaxShiftInvariant(x: seq<real>, c: real, exp: PosFn)
    requires |x| > 0
    ensures SoftmaxForward(Shift(x, c), exp) == SoftmaxForward(x, exp)
  {
    var mx := MaxUpTo(x, |x|);
    MaxUpToShift(x, c, |x|);
    ExpSumShift(x, mx, c, exp, |x|);
    forall i | 0 <= i < |x|
      ensures Shift(x, c)[i] - (mx + c) == x[i] - mx
    {
    }
  }

  /** Softmax `feed_forward`: the max loop, the exp/sum loop, the in-place division loop. */
  /** The first loop of Softmax `feed_forward`: the maximum input. */
  method RunningMax(input: seq<real>) returns (max: real)
    requires |input| > 0
    ensures max == MaxUpTo(input, |input|)
  {
    max := input[0];
    var i := 0;
    while i < |input|
      invariant 0 <= i <= |input|
      invariant max == MaxUpTo(input, i)
    {
      if input[i] > max {
        max := input[i];
      }
      i := i + 1;
    }
  }

  /** The second loop of Softmax `feed_forward`: the shifted exponentials and their sum. */
  method ShiftedExps(input: seq<real>, max: real, exp: PosFn) returns (exps: seq<real>, sum: real)
    ensures |exps| == |input| && sum == ExpSum(input, max, exp, |input|)
    ensures forall k :: 0 <= k < |input| ==> exps[k] == exp(input[k] - max)
  {
    exps := [];
    sum := 0.0;
    var i := 0;
    while i < |input|
      invariant 0 <= i <= |input| && |exps| == i
      invariant sum == ExpSum(input, max, exp, i)
      invariant forall k :: 0 <= k < i ==> exps[k] == exp(input[k] - max)
    {
      var val := exp(input[i] - max);
      sum := sum + val;
      exps := exps + [val];
      i := i + 1;
    }
  }

  method SoftmaxFeedForward(input: seq<real>, exp: PosFn) returns (exps: seq<real>)
    requires |input| > 0
    ensures exps == SoftmaxForward(input, exp)
  {
    var max := RunningMax(input);
    var sum;
    exps, sum := ShiftedExps(input, max, exp);
    ExpSumPositive(input, max, exp, |input|);
    var i := 0;
    while i < |exps|
      invariant 0 <= i <= |exps| == |input|
      invariant forall k :: 0 <= k < i ==> exps[k] == exp(input[k] - max) / sum
      invariant forall k :: i <= k < |exps| ==> exps[k] == exp(input[k] - max)
    {
      exps := exps[i := exps[i] / sum];
      i := i + 1;
    }
  }

  // ---------------------------------------------------------------------
  // The Layer capability contract, over the closed set of variants
  // ---------------------------------------------------------------------

  /** `param_num` */
  function ParamCount(l: LayerState): (n: nat)
    ensures n <= |l.connections|
    ensures n == 0 <==> l.kind.Activation? || l.kind.Softmax? || |l.connections| == 0
  {
    match l.kind
    case Dense(_, _) => |l.connections|
    case Bias => |l.connections|
    case _ => 0
  }

  /** `feed_forward`; None where the engine panics. */
  function Output(l: LayerState, x: seq<real>, exp: PosFn): (r: Option<seq<real>>)
    ensures r.None? <==> (l.kind.Dense? && l.kind.outNum == 0) ||
                         (l.kind.Bias? && |x| > |l.connections|) ||
                         (l.kind.Softmax? && |x| == 0)
    ensures r.Some? && l.kind.Dense? ==> |r.value| == l.kind.outNum
    ensures r.Some? && !l.kind.Dense? ==> |r.value| == |x|
  {
    match l.kind
    case Dense(_, m) => if m > 0 then Some(DenseForward(l.connections, m, x)) else None
    case Bias => if |x| <= |l.connections| then Some(BiasForward(l.connections, x)) else None
    case Activation(f) => Some(Activate(f, x, exp))
    case Softmax => if |x| > 0 then Some(SoftmaxForward(x, exp)) else None
  }

  /** `d_feed_forward`: the output and the derivative cache. */
  function OutputWithCache(l: LayerState, x: seq<real>, exp: PosFn): (r: Option<(seq<real>, seq<real>)>)
    ensures r.Some? <==> Output(l, x, exp).Some?
    ensures r.Some? ==> |r.value.1| == (if l.kind.Activation? then |x| else 0)
  {
    match l.kind
    case Activation(f) => Some(DActivate(f, x, exp))
    case _ => if Output(l, x, exp).Some? then Some((Output(l, x, exp).value, [])) else None
  }

  /** `back_propagate`: the error with respect to the layer's input. */
  function InputError(l: LayerState, e: seq<real>, cache: seq<real>): (r: Option<seq<real>>)
    ensures r.None? <==> (l.kind.Dense? && !DenseBackDefined(|l.connections|, l.kind.outNum, |e|)) ||
                         (l.kind.Activation? && |cache| < |e|)
    ensures r.Some? && l.kind.Dense? ==> |r.value| == |l.connections| / l.kind.outNum
    ensures r.Some? && !l.kind.Dense? ==> |r.value| == |e|
  {
    match l.kind
    case Dense(_, m) =>
      if DenseBackDefined(|l.connections|, m, |e|) then Some(DenseBackward(l.connections, m, e)) else None
    case Bias => Some(e)
    case Activation(_) => if |cache| >= |e| then Some(ChainRule(e, cache)) else None
    case Softmax => Some(e)
  }

  /** `calc_err`: the gradient with respect to the layer's parameters. */
  function ParamGrad(l: LayerState, e: seq<real>, x: seq<real>): (g: seq<real>)
    ensures l.kind.Dense? ==> |g| == |e| * |x|
    ensures l.kind.Bias? ==> g == e
    ensures l.kind.Activation? || l.kind.Softmax? ==> g == []
  {
    match l.kind
    case Dense(_, _) => DenseGrad(e, x)
    case Bias => e
    case _ => []
  }

  /** The layer after `step`. */
  function AfterStep(l: LayerState, s: seq<real>): (r: LayerState)
    ensures r.kind == l.kind && |r.connections| == |l.connections|
    ensures l.kind.Activation? || l.kind.Softmax? ==> r == l
  {
    match l.kind
    case Dense(_, _) => l.(connections := Stepped(l.connections, s))
    case Bias => l.(connections := Stepped(l.connections, s))
    case _ => l
  }

  /**
   * `d_feed_forward` fails exactly where `feed_forward` does and returns
   * the same output; its cache is empty except for Activation layers,
   * where it has one derivative per input.
   */
  lemma OutputWithCacheAgrees(l: LayerState, x: seq<real>, exp: PosFn)
    ensures OutputWithCache(l, x, exp).Some? <==> Output(l, x, exp).Some?
    ensures OutputWithCache(l, x, exp).Some? ==>
      OutputWithCache(l, x, exp).value.0 == Output(l, x, exp).value &&
      |OutputWithCache(l, x, exp).value.1| == (if l.kind.Activation? then |x| else 0)
  {
    if l.kind.Activation? {
      DActivateAgrees(l.kind.f, x, exp);
    }
  }

  /** Bias, Softmax and parameterless layers: the pass-throughs and empty gradients. */
  lemma PassThroughs(l: LayerState, e: seq<real>, x: seq<real>, cache: seq<real>)
    ensures l.kind.Bias? || l.kind.Softmax? ==> InputError(l, e, cache) == Some(e)
    ensures l.kind.Bias? ==> ParamGrad(l, e, x) == e
    ensures l.kind.Activation? || l.kind.Softmax? ==> ParamCount(l) == 0 && ParamGrad(l, e, x) == [] && AfterStep(l, x) == l
  {
  }

  /**
   * For a well-shaped layer fed well-shaped vectors, `calc_err` yields
   * exactly `param_num` entries, so the optimizer absorbs all of it.
   */
  lemma ParamGradFitsParamCount(l: LayerState, e: seq<real>, x: seq<real>)
    requires l.kind.Dense? ==>
      |l.connections| == l.kind.inNum * l.kind.outNum && |e| == l.kind.outNum && |x| == l.kind.inNum
    requires l.kind.Bias? ==> |e| == |l.connections|
    ensures |ParamGrad(l, e, x)| == ParamCount(l)
  {
  }

  /** `step` changes no length, no variant, and only the positions the step vector reaches. */
  lemma AfterStepShape(l: LayerState, s: seq<real>)
    ensures AfterStep(l, s).kind == l.kind
    ensures ParamCount(AfterStep(l, s)) == ParamCount(l)
    ensures |AfterStep(l, s).connections| == |l.connections|
    ensures forall k :: |s| <= k < |l.connections| ==> AfterStep(l, s).connections[k] == l.connections[k]
    ensures l.kind.Dense? || l.kind.Bias? ==>
      forall k :: 0 <= k < Min(|s|, |l.connections|) ==> AfterStep(l, s).connections[k] == l.connections[k] - s[k]
  {
  }

  /** A layer object; the only state `step` changes is `connections`. */
  class Layer {
    const kind: Kind
    var connections: seq<real>

    constructor (kind: Kind, connections: seq<real>)
      ensures this.kind == kind && this.connections == connections
    {
      this.kind := kind;
      this.connections := connections;
    }

    function State(): LayerState
      reads this
    {
      LayerState(kind, connections)
    }

    function ParamNum(): nat
      reads this
    {
      ParamCount(State())
    }

    method FeedForward(input: seq<real>, exp: PosFn) returns (out: seq<real>)
      requires Output(State(), input, exp).Some?
      ensures out == Output(State(), input, exp).value
    {
      match kind
      case Dense(_, m) => out := DenseFeedForward(connections, m, input);
      case Bias => out := BiasFeedForward(connections, input);
      case Activation(f) => out := Activate(f, input, exp);
      case Softmax => out := SoftmaxFeedForward(input, exp);
    }

    method DFeedForward(input: seq<real>, exp: PosFn) returns (r: (seq<real>, seq<real>))
      requires OutputWithCache(State(), input, exp).Some?
      ensures r == OutputWithCache(State(), input, exp).value
    {
      match kind
      case Activation(f) =>
        r := DActivate(f, input, exp);
      case _ =>
        var out := FeedForward(input, exp);
        r := (out, []);
    }

    method BackPropagate(outErr: seq<real>, cache: seq<real>) returns (err: seq<real>)
      requires InputError(State(), outErr, cache).Some?
      ensures err == InputError(State(), outErr, cache).value
    {
      match kind
      case Dense(_, m) => err := DenseBackPropagate(connections, m, outErr);
      case Bias => err := outErr;
      case Activation(_) => err := ActivationBackPropagate(outErr, cache);
      case Softmax => err := outErr;
    }

    method CalcErr(prevErr: seq<real>, input: seq<real>) returns (g: seq<real>)
      ensures g == ParamGrad(State(), prevErr, input)
    {
      match kind
      case Dense(_, _) => g := DenseCalcErr(prevErr, input);
      case Bias => g := prevErr;
      case _ => g := [];
    }

    /** Dense and Bias subtract in place; the other variants do nothing. */
    method Step(step: seq<real>)
      modifies this
      ensures State() == AfterStep(old(State()), step)
    {
      if kind.Dense? || kind.Bias? {
        var k := 0;
        while k < |connections| && k < |step|
          invariant 0 <= k <= |connections| == |old(connections)| && k <= |step|
          invariant connections == seq(|old(connections)|, j requires 0 <= j < |old(connections)| =>
            if j < k then old(connections)[j] - step[j] else old(connections)[j])
        {
          connections := connections[k := connections[k] - step[k]];
          k := k + 1;
        }
        assert connections == Stepped(old(connections), step);
      }
    }
  }
}

/**
 * Scalars and vectors shared by the layers and the optimizers.
 *
 * The engine computes on `f32`; the model computes on `real`, so rounding,
 * overflow and NaN are not part of it. The two transcendental functions the
 * engine calls, `exp` and `sqrt`, are not interpreted: every operation that
 * needs one takes it as a parameter. The only facts the model relies on are
 * the ones that keep its divisions defined: `exp` is positive and `sqrt` is
 * non-negative.
 */
module Vectors {

  datatype Option<T> = None | Some(value: T)

  type Positive = r: real | r > 0.0 witness 1.0
  type NonNegative = r: real | r >= 0.0 witness 0.0

  /** The exponential function, known only to be positive. */
  type PosFn = real -> Positive

  /** The square root, known only to be non-negative. */
  type NonNegFn = real -> NonNegative

  /** `vec![0f32; n]` */
  function Zeros(n: nat): (z: seq<real>)
    ensures |z| == n
    ensures forall j :: 0 <= j < n ==> z[j] == 0.0
  {
    seq(n, _ => 0.0)
  }

  function Min(a: int, b: int): int
  {
    if a < b then a else b
  }

  /** The length of every row of a vector of vectors. */
  function Shape(v: seq<seq<real>>): (s: seq<nat>)
    ensures |s| == |v|
    ensures forall i :: 0 <= i < |v| ==> s[i] == |v[i]|
  {
    seq(|v|, i requires 0 <= i < |v| => |v[i]|)
  }

  predicate AllZero(v: seq<seq<real>>)
  {
    forall i, j :: 0 <= i < |v| && 0 <= j < |v[i]| ==> v[i][j] == 0.0
  }

  /** Every row replaced by zeros of the same length. */
  function Zeroed(v: seq<seq<real>>): (z: seq<seq<real>>)
    ensures Shape(z) == Shape(v)
    ensures AllZero(z)
  {
    seq(|v|, i requires 0 <= i < |v| => Zeros(|v[i]|))
  }

  /** a*b <= c*b for a <= c and b >= 0 */
  lemma MulMonotone(a: int, c: int, b: nat)
    requires a <= c
    ensures a * b <= c * b
  {
    var d := c - a;
    assert c * b == a * b + d * b;
  }

  /**
   * A vector of `rows` full chunks of width `m`: chunk `i` lies inside it.
   */
  lemma ChunkInside(i: nat, m: nat, len: nat)
    requires m > 0 && len % m == 0 && i < len / m
    ensures i * m + m <= len
  {
    MulMonotone(i + 1, len / m, m);
    assert len == (len / m) * m;
  }

  // Real-arithmetic facts, each proved in isolation so that the solver
  // does not search for them inside larger proofs.

  lemma Distribute(c: real, a: real, x: real, y: real)
    ensures c * (a * x + y) == a * (c * x) + c * y
  {
  }

  lemma QuotientPositive(a: real, b: real)
    requires a > 0.0 && b > 0.0
    ensures a / b > 0.0
  {
  }

  lemma Reciprocal(a: real)
    requires a > 0.0
    ensures (1.0 / a) * a == 1.0
  {
  }

  /** 1/a lies strictly between 0 and 1 once a exceeds 1. */
  lemma UnitReciprocal(a: real)
    requires a > 1.0
    ensures 0.0 < 1.0 / a < 1.0
  {
  }

  /** The logistic slope s(1 - s) lies in (0, 1/4] for s in (0, 1). */
  lemma LogisticSlope(s: real)
    requires 0.0 < s < 1.0
    ensures 0.0 < s * (1.0 - s) <= 0.25
  {
    assert 0.25 - s * (1.0 - s) == (s - 0.5) * (s - 0.5);
  }

  /** `d.powi(2)` */
  function Square(d: real): real
  {
    d * d
  }

  lemma SquareNonNegative(d: real)
    ensures Square(d) >= 0.0
  {
  }

  lemma SquareOfPositive(a: real)
    requires a > 0.0
    ensures Square(a) > 0.0
  {
    assert Square(a) / a == a;
  }

  lemma SquareOfNegation(d: real)
    ensures Square(-d) == Square(d)
  {
  }

  lemma SquarePositive(d: real)
    requires d != 0.0
    ensures Square(d) > 0.0
  {
    if d > 0.0 {
      SquareOfPositive(d);
    } else {
      SquareOfPositive(-d);
      SquareOfNegation(d);
    }
  }

  lemma SquareZero(d: real)
    requires Square(d) == 0.0
    ensures d == 0.0
  {
    if d != 0.0 {
      SquarePositive(d);
    }
  }

  /** z = a*x + y, as a named relation so that proofs can match it whole. */
  predicate Affine(z: real, a: real, x: real, y: real)
  {
    z == a * x + y
  }

  /** The affine relation carried over to equal values. */
  lemma AffineTransfer(l: real, u: real, v: real, a: real, sz: real, sx: real, sy: real)
    requires Affine(sz, a, sx, sy) && l == sz && u == sx && v == sy
    ensures l == a * u + v
  {
  }

  /**
   * Linearity survives one more term of a running sum: if z = a*x + y so
   * far and for the new entries, it holds after adding c times them.
   */
  lemma LinearStep(pz: real, px: real, py: real, a: real, c: real, xv: real, yv: real, zv: real,
                   sz: real, sx: real, sy: real)
    requires Affine(pz, a, px, py) && Affine(zv, a, xv, yv)
    requires sz == pz + c * zv && sx == px + c * xv && sy == py + c * yv
    ensures Affine(sz, a, sx, sy)
  {
    Distribute(c, a, xv, yv);
  }

  lemma SumScaled(c: real, a: real, b: real, s: real)
    ensures (c + a * s) + b * s == c + (a + b) * s
  {
  }
}

/** The transcendental functions of the kernels, uninterpreted, and the scalar expressions built from
    them.  Only `exp > 0` is ever assumed, and only so that the sigmoid's division is defined. */
module Functions {

  type Positive = f: real -> real | forall x: real :: f(x) > 0.0 witness (x: real) => 1.0

  datatype Fns = Fns(exp: Positive, log: real -> real, rsqrt: real -> real, cos: real -> real, sin: real -> real,
                     tanh: real -> real)

  /** A placeholder for the witnesses of the models' types. */
  const NOFNS := Fns((x: real) => 1.0, x => 0.0, x => 0.0, x => 0.0, x => 0.0, x => 0.0)

  function Sigmoid(k: Fns, x: real): real {
    1.0 / (1.0 + k.exp(-x))
  }

  function Silu(k: Fns, x: real): real {
    x * Sigmoid(k, x)
  }

  function Softplus(k: Fns, x: real): real {
    k.log(1.0 + k.exp(x))
  }

  /** The derivative factors that the backward kernels spell out. */
  function DSigmoid(k: Fns, x: real): real {
    Sigmoid(k, x) * (1.0 - Sigmoid(k, x))
  }

  function DSilu(k: Fns, x: real): real {
    Sigmoid(k, x) * (1.0 + x * (1.0 - Sigmoid(k, x)))
  }

  /** What the recurrences need of the transcendental functions to contract: all are facts of the real
      exponential and logarithm. */
  ghost predicate Contracting(k: Fns) {
    (forall z {:trigger k.exp(z)} :: z < 0.0 ==> k.exp(z) < 1.0) && (forall x :: Softplus(k, x) > 0.0)
  }

  function Abs(x: real): real { if x < 0.0 then -x else x }

  lemma Triangle(x: real, y: real)
    ensures Abs(x + y) <= Abs(x) + Abs(y)
  {
  }

  lemma NotPositive(a: real, b: real)
    requires a <= 0.0 && b >= 0.0
    ensures a * b <= 0.0
  {
  }

  lemma Negative(a: real, b: real)
    requires a < 0.0 && b > 0.0
    ensures a * b < 0.0
  {
  }

  function Min(x: real, y: real): real {
    if x < y then x else y
  }

  // ---- one entry of a normalised row v * inv * scale + bias ----

  /** Its tangent, when v moves by `tv`, the inverse root mean square by `tinv`, and so on. */
  function NormTangent(v: real, tv: real, inv: real, tinv: real, scale: real, tscale: real, tbias: real): real {
    tv * inv * scale + v * tinv * scale + v * inv * tscale + tbias
  }

  /** rsqrt' = -rsqrt^3 / 2, applied to the mean square of `size` entries; `move` is the sum of v * tv. */
  function InvTangent(inv: real, move: real, size: real): real
    requires size != 0.0
  {
    -inv * inv * inv * move / size
  }

  /** The backward kernels' dot product term and gradient of v; `share` is the output cotangent. */
  function NormDotTerm(share: real, scale: real, v: real): real {
    share * scale * v
  }

  function NormBackward(inv: real, share: real, scale: real, v: real, dot: real, size: real): real
    requires size != 0.0
  {
    inv * (share * scale - v * dot * inv * inv / size)
  }
}

/** inkbridge-convert/src/affine.rs over the reals: six-coefficient affine maps and their inverses. */
module Affines {
  import opened Wrappers

  const SINGULARITY_EPSILON: real := 0.000000000001

  datatype AffinePoint = AffinePoint(x: real, y: real)

  function Abs(v: real): real {
    if v < 0.0 then -v else v
  }

  function Max(a: real, b: real): real {
    if a < b then b else a
  }

  function Min(a: real, b: real): real {
    if b < a then b else a
  }

  /** x' = a*x + c*y + e and y' = b*x + d*y + f. */
  datatype AffineTransform = AffineTransform(a: real, b: real, c: real, d: real, e: real, f: real) {
    function Apply(p: AffinePoint): AffinePoint {
      AffinePoint(a * p.x + c * p.y + e, b * p.x + d * p.y + f)
    }

    function LinearScale(): real {
      Max(Max(Max(Abs(a), Abs(b)), Abs(c)), Abs(d))
    }

    function Inverse(): Result<AffineTransform, string> {
      var scale := LinearScale();
      if scale == 0.0 then Failure("singular")
      else
        // Relative to the largest coefficient, so that units do not matter.
        var linear := Linear(a / scale, b / scale, c / scale, d / scale);
        if Abs(linear.Determinant()) <= SINGULARITY_EPSILON then Failure("singular")
        else Success(linear.InverseTimes((1.0 / scale) / linear.Determinant(), e, f))
    }
  }

  datatype Linear = Linear(a: real, b: real, c: real, d: real) {
    function Determinant(): real {
      a * d - b * c
    }

    /** `factor` times the adjugate, with the offsets that send (e, f) to the origin. */
    function InverseTimes(factor: real, e: real, f: real): AffineTransform {
      var ia, ib, ic, id := d * factor, -b * factor, -c * factor, a * factor;
      AffineTransform(ia, ib, ic, id, -(ia * e + ic * f), -(ib * e + id * f))
    }
  }

  /** Composing two maps whose linear parts and offsets cancel gives the identity. */
  lemma Cancel(t: AffineTransform, u: AffineTransform, p: AffinePoint)
    requires u.a * t.a + u.c * t.b == 1.0 && u.a * t.c + u.c * t.d == 0.0 && u.a * t.e + u.c * t.f + u.e == 0.0
    requires u.b * t.a + u.d * t.b == 0.0 && u.b * t.c + u.d * t.d == 1.0 && u.b * t.e + u.d * t.f + u.f == 0.0
    ensures u.Apply(t.Apply(p)) == p
  {
    Collect(u.a, u.c, u.e, t, p);
    Collect(u.b, u.d, u.f, t, p);
  }

  lemma Collect(m: real, n: real, k: real, t: AffineTransform, p: AffinePoint)
    ensures m * t.Apply(p).x + n * t.Apply(p).y + k
            == (m * t.a + n * t.b) * p.x + (m * t.c + n * t.d) * p.y + (m * t.e + n * t.f + k)
  {
  }

  lemma Terms(s: real, n0: real, n1: real, n2: real, n3: real, k: real)
    ensures n3 * k * (s * n0) + -n2 * k * (s * n1) == s * k * (n0 * n3 - n1 * n2)
    ensures n3 * k * (s * n2) + -n2 * k * (s * n3) == 0.0
    ensures -n1 * k * (s * n0) + n0 * k * (s * n1) == 0.0
    ensures -n1 * k * (s * n2) + n0 * k * (s * n3) == s * k * (n0 * n3 - n1 * n2)
  {
  }

  lemma Divided(v: real, s: real)
    requires s != 0.0
    ensures s * (v / s) == v
  {
  }

  lemma FactorUndoes(s: real, determinant: real)
    requires s != 0.0 && determinant != 0.0
    ensures s * ((1.0 / s) / determinant) * determinant == 1.0
  {
    Divided(1.0 / s, determinant);
    Divided(1.0, s);
    var k := (1.0 / s) / determinant;
    assert s * k * determinant == s * (determinant * k);
  }

  function Relative(t: AffineTransform, s: real): Linear
    requires s != 0.0
  {
    Linear(t.a / s, t.b / s, t.c / s, t.d / s)
  }

  lemma RelativeScaled(t: AffineTransform, s: real)
    requires s != 0.0
    ensures var linear := Relative(t, s); t.a == s * linear.a && t.b == s * linear.b && t.c == s * linear.c && t.d == s * linear.d
  {
    Divided(t.a, s);
    Divided(t.b, s);
    Divided(t.c, s);
    Divided(t.d, s);
  }

  lemma InverseIs(t: AffineTransform)
    requires t.Inverse().Success?
    ensures t.LinearScale() != 0.0 && Relative(t, t.LinearScale()).Determinant() != 0.0
    ensures t.Inverse().value == Relative(t, t.LinearScale()).InverseTimes((1.0 / t.LinearScale()) / Relative(t, t.LinearScale()).Determinant(), t.e, t.f)
  {
  }

  /** The inverse of a map that has one undoes it on every point, whichever is applied first. */
  lemma InverseUndoes(t: AffineTransform, p: AffinePoint)
    requires t.Inverse().Success?
    ensures t.Inverse().value.Apply(t.Apply(p)) == p
    ensures t.Apply(t.Inverse().value.Apply(p)) == p
  {
    InverseIs(t);
    ScaledInverse(t, t.LinearScale(), p);
  }

  lemma ScaledInverse(t: AffineTransform, s: real, p: AffinePoint)
    requires s != 0.0 && Relative(t, s).Determinant() != 0.0
    ensures var u := Relative(t, s).InverseTimes((1.0 / s) / Relative(t, s).Determinant(), t.e, t.f);
            u.Apply(t.Apply(p)) == p && t.Apply(u.Apply(p)) == p
  {
    RelativeScaled(t, s);
    FactorUndoes(s, Relative(t, s).Determinant());
    ScaleCancels(t, s, Relative(t, s), (1.0 / s) / Relative(t, s).Determinant(), p);
  }

  lemma ScaleCancels(t: AffineTransform, s: real, linear: Linear, k: real, p: AffinePoint)
    requires t.a == s * linear.a && t.b == s * linear.b && t.c == s * linear.c && t.d == s * linear.d
    requires s * k * linear.Determinant() == 1.0
    ensures var u := linear.InverseTimes(k, t.e, t.f);
            u.Apply(t.Apply(p)) == p && t.Apply(u.Apply(p)) == p
  {
    CancelsBothWays(t, linear.InverseTimes(k, t.e, t.f), s, linear.a, linear.b, linear.c, linear.d, k, p);
  }

  lemma CancelsBothWays(t: AffineTransform, u: AffineTransform, s: real, n0: real, n1: real, n2: real, n3: real, k: real, p: AffinePoint)
    requires t.a == s * n0 && t.b == s * n1 && t.c == s * n2 && t.d == s * n3
    requires s * k * (n0 * n3 - n1 * n2) == 1.0
    requires u.a == n3 * k && u.b == -n1 * k && u.c == -n2 * k && u.d == n0 * k
    requires u.e == -(u.a * t.e + u.c * t.f) && u.f == -(u.b * t.e + u.d * t.f)
    ensures u.Apply(t.Apply(p)) == p && t.Apply(u.Apply(p)) == p
  {
    Terms(s, n0, n1, n2, n3, k);
    LinearPartsCancel(t, u, s, n0, n1, n2, n3, k);
    OffsetsCancel(t.a, t.c, u, t.e, t.f, t.e);
    OffsetsCancel(t.b, t.d, u, t.e, t.f, t.f);
    Cancel(t, u, p);
    Cancel(u, t, p);
  }

  lemma LinearPartsCancel(t: AffineTransform, u: AffineTransform, s: real, n0: real, n1: real, n2: real, n3: real, k: real)
    requires t.a == s * n0 && t.b == s * n1 && t.c == s * n2 && t.d == s * n3
    requires s * k * (n0 * n3 - n1 * n2) == 1.0
    requires u.a == n3 * k && u.b == -n1 * k && u.c == -n2 * k && u.d == n0 * k
    ensures t.a * u.a + t.c * u.b == 1.0 && t.a * u.c + t.c * u.d == 0.0
    ensures t.b * u.a + t.d * u.b == 0.0 && t.b * u.c + t.d * u.d == 1.0
    ensures u.a * t.a + u.c * t.b == 1.0 && u.a * t.c + u.c * t.d == 0.0
    ensures u.b * t.a + u.d * t.b == 0.0 && u.b * t.c + u.d * t.d == 1.0
  {
    Terms(s, n0, n1, n2, n3, k);
  }

  lemma OffsetsCancel(m: real, n: real, u: AffineTransform, e: real, f: real, k: real)
    requires (m * u.a + n * u.b) * e + (m * u.c + n * u.d) * f == k
    requires u.e == -(u.a * e + u.c * f) && u.f == -(u.b * e + u.d * f)
    ensures m * u.e + n * u.f + k == 0.0
  {
  }

  /** A map has an inverse exactly when its determinant is not tiny relative to the square of its largest
      coefficient. */
  lemma InvertibleExactly(t: AffineTransform, s: real)
    requires s == t.LinearScale()
    ensures t.Inverse().Success? <==> s > 0.0 && Abs(t.a * t.d - t.b * t.c) > SINGULARITY_EPSILON * s * s
  {
    InverseExists(t);
    if s > 0.0 {
      DeterminantScales(t, s);
    }
  }

  lemma InverseExists(t: AffineTransform)
    ensures t.Inverse().Success? <==>
            t.LinearScale() != 0.0 && Abs(Relative(t, t.LinearScale()).Determinant()) > SINGULARITY_EPSILON
  {
  }

  lemma DeterminantScales(t: AffineTransform, s: real)
    requires s > 0.0
    ensures Abs(t.a * t.d - t.b * t.c) > SINGULARITY_EPSILON * s * s
            <==> Abs(Relative(t, s).Determinant()) > SINGULARITY_EPSILON
  {
    RelativeScaled(t, s);
    Determinants(t, s, Relative(t, s));
    var n := Relative(t, s).Determinant();
    Scaled(n, SINGULARITY_EPSILON, s);
    Scaled(n * s, SINGULARITY_EPSILON * s, s);
  }

  lemma Determinants(t: AffineTransform, s: real, linear: Linear)
    requires t.a == s * linear.a && t.b == s * linear.b && t.c == s * linear.c && t.d == s * linear.d
    ensures t.a * t.d - t.b * t.c == linear.Determinant() * s * s
  {
  }

  lemma Scaled(n: real, bound: real, k: real)
    requires k > 0.0
    ensures Abs(n * k) > bound * k <==> Abs(n) > bound
  {
    assert Abs(n * k) == Abs(n) * k;
  }
}

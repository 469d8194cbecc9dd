/**
  The display gamma of the simulator: each channel is raised to the power 2.2 to reach
  linear light, and to the power 1/2.2 to return. Real powers with a non-integer
  exponent cannot be computed here, so the two curves are parameters, and the
  model keeps only the facts the pipeline relies on (see IsTransferCurve).
 */
module Transfer {
  import opened Color

  /**
    The facts x ** p has on [0,1] for every positive exponent p: it maps [0,1]
    into [0,1], fixes 0 and 1, and is monotone.
   */
  ghost predicate IsTransferCurve(f: real -> real)
  {
    && f(0.0) == 0.0
    && f(1.0) == 1.0
    && (forall x :: InUnit(x) ==> InUnit(f(x)))
    && (forall x, y :: 0.0 <= x <= y <= 1.0 ==> f(x) <= f(y))
  }

  /** The pair of curves: decode is x ** 2.2, encode is x ** (1/2.2). */
  datatype Gamma = Gamma(decode: real -> real, encode: real -> real)

  ghost predicate Valid(g: Gamma)
  {
    IsTransferCurve(g.decode) && IsTransferCurve(g.encode)
  }

  /** In exact arithmetic (x ** 2.2) ** (1/2.2) == x on [0,1]; used only where stated. */
  ghost predicate RoundTrips(g: Gamma)
  {
    forall x :: InUnit(x) ==> g.encode(g.decode(x)) == x
  }

  /** Removes the display gamma from every channel (r ** 2.2, g ** 2.2, b ** 2.2). */
  function Decode(g: Gamma, c: Rgb): (d: Rgb)
    requires Valid(g)
    ensures InGamut(c) ==> InGamut(d)
    ensures c == Black ==> d == Black
    ensures c == White ==> d == White
  {
    Rgb(g.decode(c.r), g.decode(c.g), g.decode(c.b))
  }

  /** Re-applies the display gamma to every channel (each channel ** (1/2.2)). */
  function Encode(g: Gamma, c: Rgb): (d: Rgb)
    requires Valid(g)
    ensures InGamut(c) ==> InGamut(d)
    ensures c == Black ==> d == Black
    ensures c == White ==> d == White
  {
    Rgb(g.encode(c.r), g.encode(c.g), g.encode(c.b))
  }

  lemma DecodeMonotone(g: Gamma, c: Rgb, d: Rgb)
    requires Valid(g) && InGamut(c) && InGamut(d) && Below(c, d)
    ensures Below(Decode(g, c), Decode(g, d))
  {
  }

  lemma EncodeMonotone(g: Gamma, c: Rgb, d: Rgb)
    requires Valid(g) && InGamut(c) && InGamut(d) && Below(c, d)
    ensures Below(Encode(g, c), Encode(g, d))
  {
  }

  /** The assumptions are consistent: the identity curves satisfy all of them. */
  lemma IdentityGammaIsValid()
    ensures Valid(Gamma(x => x, x => x)) && RoundTrips(Gamma(x => x, x => x))
  {
  }
}

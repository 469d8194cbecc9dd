/** Colours as triples of real channels, and the clip of each channel to [0,1]. */
module Color {

  /** One colour: its red, green and blue channels. */
  datatype Rgb = Rgb(r: real, g: real, b: real)

  const Black := Rgb(0.0, 0.0, 0.0)
  const White := Rgb(1.0, 1.0, 1.0)

  /** The grey whose three channels all equal x. */
  function Grey(x: real): Rgb
  {
    Rgb(x, x, x)
  }

  predicate InUnit(x: real)
  {
    0.0 <= x <= 1.0
  }

  /** Every channel lies in [0,1]. */
  predicate InGamut(c: Rgb)
  {
    InUnit(c.r) && InUnit(c.g) && InUnit(c.b)
  }

  /** Channel-wise order: c is nowhere brighter than d. */
  predicate Below(c: Rgb, d: Rgb)
  {
    c.r <= d.r && c.g <= d.g && c.b <= d.b
  }

  /** Clips one channel to [0,1], as np.clip(x, 0, 1) does. */
  function Clip(x: real): (y: real)
    ensures InUnit(y)
    ensures InUnit(x) ==> y == x
    ensures x < 0.0 ==> y == 0.0
    ensures 1.0 < x ==> y == 1.0
  {
    if x < 0.0 then 0.0 else if 1.0 < x then 1.0 else x
  }

  /** Clips every channel of a colour to [0,1]. */
  function ClipRgb(c: Rgb): (d: Rgb)
    ensures InGamut(d)
    ensures InGamut(c) ==> d == c
    ensures Below(Black, c) ==> Below(d, c)
  {
    Rgb(Clip(c.r), Clip(c.g), Clip(c.b))
  }

  /** Clipping never reverses the order of two channel values. */
  lemma ClipMonotone(x: real, y: real)
    requires x <= y
    ensures Clip(x) <= Clip(y)
  {
  }

  lemma ClipRgbMonotone(c: Rgb, d: Rgb)
    requires Below(c, d)
    ensures Below(ClipRgb(c), ClipRgb(d))
  {
    ClipMonotone(c.r, d.r);
    ClipMonotone(c.g, d.g);
    ClipMonotone(c.b, d.b);
  }
}

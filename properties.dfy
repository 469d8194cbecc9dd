/** What simulate_colorblindness guarantees, stated over the model in Simulation. */
module Properties {
  import opened Color
  import opened Transfer
  import opened Matrices
  import opened Simulation

  /** Omitting the type is the same as asking for Deuteranopia. */
  lemma DefaultIsDeuteranopia(codec: HexCodec, g: Gamma, hex: string)
    requires ValidCodec(codec) && Valid(g)
    ensures SimulateColorblindness(codec, g, hex) == SimulateColorblindness(codec, g, hex, "Deuteranopia")
  {
  }

  /**
    Any type other than the three exact names returns the input string itself
    once it parses; an unreadable string is an error for every type. This is
    the pass-through clause of SimulateColorblindness with the three names
    written out, the form in which a caller passing a free-form label meets it.
   */
  lemma UnknownTypePassesThrough(codec: HexCodec, g: Gamma, hex: string, kind: string)
    requires ValidCodec(codec) && Valid(g)
    requires kind != "Deuteranopia" && kind != "Protanopia" && kind != "Tritanopia"
    ensures codec.parse(hex).Some? ==> SimulateColorblindness(codec, g, hex, kind) == Ok(hex)
    ensures codec.parse(hex).None? ==> SimulateColorblindness(codec, g, hex, kind).Err?
  {
  }

  /**
    The clip only ever caps: for an input in [0,1] the lower bound changes
    nothing, and every channel except the blue one of Deuteranopia passes the
    clip unchanged.
   */
  lemma ClipOnlyCapsDeuteranopiaBlue(d: Deficiency, v: Rgb)
    requires InGamut(v)
    ensures d != Deuteranopia ==> ClipRgb(Mixed(d, v)) == Mixed(d, v)
    ensures d == Deuteranopia ==> ClipRgb(Mixed(d, v)) == Mixed(d, v).(b := Clip(Mixed(d, v).b))
    ensures Below(ClipRgb(Mixed(d, v)), Mixed(d, v))
  {
  }

  /** The cap is needed: Deuteranopia mixes white to a blue value of 1.3. */
  lemma DeuteranopiaWhiteOverflows()
    ensures Mixed(Deuteranopia, White) == Rgb(1.0, 1.0, 1.3)
  {
    ApplyWhite(DeuteranopiaMatrix);
  }

  /**
    For Deuteranopia and Protanopia the red and green outputs do not depend on
    the blue input: the first two rows have a zero in their third column.
   */
  lemma RedGreenIgnoreBlue(g: Gamma, d: Deficiency, c: Rgb, c': Rgb)
    requires Valid(g) && InGamut(c) && InGamut(c')
    requires d != Tritanopia && c.r == c'.r && c.g == c'.g
    ensures SimulateRgb(g, d, c).r == SimulateRgb(g, d, c').r
    ensures SimulateRgb(g, d, c).g == SimulateRgb(g, d, c').g
  {
    var v, v' := Decode(g, c), Decode(g, c');
    var m := MatrixOf(d);
    assert m.red.b == 0.0 && m.green.b == 0.0;
    assert Dot(m.red, v) == Dot(m.red, v') && Dot(m.green, v) == Dot(m.green, v');
    assert ClipRgb(Mixed(d, v)).r == ClipRgb(Mixed(d, v')).r;
    assert ClipRgb(Mixed(d, v)).g == ClipRgb(Mixed(d, v')).g;
  }

  /**
    A colour that is nowhere darker than another is simulated to a colour that
    is nowhere darker: every matrix entry is non-negative and both gamma curves
    and the clip are monotone.
   */
  lemma SimulateMonotone(g: Gamma, d: Deficiency, c: Rgb, c': Rgb)
    requires Valid(g) && InGamut(c) && InGamut(c') && Below(c, c')
    ensures Below(SimulateRgb(g, d, c), SimulateRgb(g, d, c'))
  {
    var v, v' := Decode(g, c), Decode(g, c');
    DecodeMonotone(g, c, c');
    ApplyMonotone(MatrixOf(d), v, v');
    ClipRgbMonotone(Mixed(d, v), Mixed(d, v'));
    EncodeMonotone(g, ClipRgb(Mixed(d, v)), ClipRgb(Mixed(d, v')));
  }

  /**
    With exact powers, Protanopia and Tritanopia leave every grey unchanged:
    their rows sum to 1.
   */
  lemma GreyIsFixed(g: Gamma, d: Deficiency, x: real)
    requires Valid(g) && RoundTrips(g) && InUnit(x) && d != Deuteranopia
    ensures SimulateRgb(g, d, Grey(x)) == Grey(x)
  {
    var y := g.decode(x);
    assert Decode(g, Grey(x)) == Grey(y);
    StochasticKeepsGrey(MatrixOf(d), y);
  }

  /**
    Under Deuteranopia a grey keeps its red and green channels and its blue
    channel can only grow (the blue row sums to 1.3).
   */
  lemma DeuteranopiaGrey(g: Gamma, x: real)
    requires Valid(g) && RoundTrips(g) && InUnit(x)
    ensures SimulateRgb(g, Deuteranopia, Grey(x)).r == x
    ensures SimulateRgb(g, Deuteranopia, Grey(x)).g == x
    ensures x <= SimulateRgb(g, Deuteranopia, Grey(x)).b
  {
    var y := g.decode(x);
    assert Decode(g, Grey(x)) == Grey(y);
    var w := Mixed(Deuteranopia, Grey(y));
    assert w == Rgb(y, y, 1.3 * y);
    assert y <= Clip(w.b);
    assert g.encode(y) <= g.encode(Clip(w.b));
  }

  /**
    Black and white are fixed points at the level of the hex strings, for a
    codec that formats the parsed colour back to the same spelling.
   */
  lemma BlackAndWhiteAreFixed(codec: HexCodec, g: Gamma, hex: string, kind: string)
    requires ValidCodec(codec) && Valid(g)
    requires codec.parse(hex) == Some(Black) || codec.parse(hex) == Some(White)
    requires codec.format(codec.parse(hex).value) == hex
    ensures SimulateColorblindness(codec, g, hex, kind) == Ok(hex)
  {
    var c := codec.parse(hex).value;
    match ParseDeficiency(kind)
    case None =>
    case Some(d) =>
      assert SimulateRgb(g, d, c) == c;
  }
}
